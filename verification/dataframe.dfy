/** A strategy's dataframe. Partial candles are shown to high-frequency strategies and overwritten
    when their period completes. */
module Dataframes {
  import opened Types
  import opened Feed

  /** A candle at the time of the last row replaces that row, any other candle is appended. */
  function Put(rows: seq<Candle>, c: Candle): seq<Candle> {
    if rows != [] && rows[|rows|-1].time == c.time then rows[|rows|-1 := c] else rows + [c]
  }

  function AfterPartial(rows: seq<Candle>, c: Candle, warmup: nat, highFrequency: bool): seq<Candle> {
    if !c.complete && |rows| >= warmup && highFrequency then Put(rows, c) else rows
  }

  /** A candle older than the last row is dropped. */
  function AfterCandle(rows: seq<Candle>, c: Candle): seq<Candle> {
    if rows != [] && c.time < rows[|rows|-1].time then rows else Put(rows, c)
  }

  function Consume(rows: seq<Candle>, c: Candle, warmup: nat, highFrequency: bool): seq<Candle> {
    var r := AfterPartial(rows, c, warmup, highFrequency);
    if c.complete then AfterCandle(r, c) else r
  }

  /** A complete candle calls a started strategy unless it is late or the dataframe is still too short;
      a partial one calls a high-frequency strategy, started or not. */
  predicate Called(rows: seq<Candle>, c: Candle, warmup: nat, highFrequency: bool, started: bool) {
    if c.complete
    then started && !(rows != [] && c.time < rows[|rows|-1].time) && |Put(rows, c)| >= warmup
    else highFrequency && |rows| >= warmup
  }

  function ConsumeAll(feed: seq<Candle>, warmup: nat, highFrequency: bool): seq<Candle> {
    if feed == [] then []
    else Consume(ConsumeAll(feed[..|feed|-1], warmup, highFrequency), feed[|feed|-1], warmup, highFrequency)
  }

  class StrategyController {
    const warmupPeriod: nat
    const highFrequency: bool
    var started: bool
    var close: seq<real>
    var open: seq<real>
    var high: seq<real>
    var low: seq<real>
    var volume: seq<real>
    var time: seq<int>
    var lastUpdate: int
    ghost var rows: seq<Candle>

    /** The columns show the rows. */
    ghost predicate Valid()
      reads this
    {
      && |rows| == |close| == |open| == |high| == |low| == |volume| == |time|
      && (forall i :: 0 <= i < |rows| ==>
            rows[i].close == close[i] && rows[i].open == open[i] && rows[i].high == high[i]
            && rows[i].low == low[i] && rows[i].volume == volume[i] && rows[i].time == time[i])
      && (rows != [] ==> lastUpdate == rows[|rows|-1].time)
    }

    constructor (warmupPeriod: nat, highFrequency: bool)
      ensures Valid() && rows == [] && !started
      ensures this.warmupPeriod == warmupPeriod && this.highFrequency == highFrequency
    {
      this.warmupPeriod, this.highFrequency, started := warmupPeriod, highFrequency, false;
      close, open, high, low, volume, time, lastUpdate := [], [], [], [], [], [], ZERO_TIME;
      rows := [];
    }

    method Start()
      requires Valid()
      modifies this`started
      ensures Valid() && started
    {
      started := true;
    }

    method UpdateDataFrame(candle: Candle)
      requires Valid()
      modifies this
      ensures Valid() && rows == Put(old(rows), candle) && started == old(started)
    {
      if |time| > 0 && candle.time == time[|time| - 1] {
        var last := |time| - 1;
        close := close[last := candle.close];
        open := open[last := candle.open];
        high := high[last := candle.high];
        low := low[last := candle.low];
        volume := volume[last := candle.volume];
        time := time[last := candle.time];
      } else {
        close := close + [candle.close];
        open := open + [candle.open];
        high := high + [candle.high];
        low := low + [candle.low];
        volume := volume + [candle.volume];
        time := time + [candle.time];
        lastUpdate := candle.time;
      }
      rows := Put(rows, candle);
    }

    /** Reports whether the strategy is called on the dataframe. */
    method OnPartialCandle(candle: Candle) returns (run: bool)
      requires Valid()
      modifies this
      ensures Valid() && started == old(started)
      ensures rows == AfterPartial(old(rows), candle, warmupPeriod, highFrequency)
      ensures run <==> !candle.complete && Called(old(rows), candle, warmupPeriod, highFrequency, started)
    {
      run := !candle.complete && |close| >= warmupPeriod && highFrequency;
      if run { UpdateDataFrame(candle); }
    }

    method OnCandle(candle: Candle) returns (run: bool)
      requires Valid()
      modifies this
      ensures Valid() && started == old(started)
      ensures rows == AfterCandle(old(rows), candle)
      ensures candle.complete ==> (run <==> Called(old(rows), candle, warmupPeriod, highFrequency, started))
    {
      if |time| > 0 && candle.time < time[|time| - 1] { return false; }
      UpdateDataFrame(candle);
      assert rows != [];
      run := |close| >= warmupPeriod && started;
    }
  }

  // ----- partial candles leave no trace -----

  function Completes(feed: seq<Candle>): seq<Candle> {
    if feed == [] then []
    else
      var done, c := Completes(feed[..|feed|-1]), feed[|feed|-1];
      if c.complete then done + [c] else done
  }

  /** The last complete candle is earlier than whatever period follows it. */
  lemma {:induction false} LastCompleteIsEarlier(feed: seq<Candle>, k: nat)
    requires Phased(feed) && k < |feed| && Completes(feed[..k]) != []
    ensures var done := Completes(feed[..k]); done[|done|-1].time < feed[k].time
  {
    var c := feed[k - 1];
    assert feed[..k][..k - 1] == feed[..k - 1];
    if !c.complete {
      LastCompleteIsEarlier(feed, k - 1);
    }
  }

  /** The open period's partial candle, if the strategy sees it. */
  function Shown(feed: seq<Candle>, warmup: nat, highFrequency: bool): seq<Candle> {
    if feed != [] && !feed[|feed|-1].complete && highFrequency && |Completes(feed)| >= warmup
    then [feed[|feed|-1]] else []
  }

  /** Consuming one more candle of a feed whose complete ones are all earlier. */
  lemma ConsumeNext(done: seq<Candle>, shown: seq<Candle>, c: Candle, warmup: nat, highFrequency: bool)
    requires |shown| <= 1 && (shown != [] ==> shown[0].time == c.time)
    requires done != [] ==> done[|done|-1].time < c.time
    requires shown != [] ==> |done| >= warmup && highFrequency
    ensures Consume(done + shown, c, warmup, highFrequency)
         == if c.complete || (highFrequency && |done| >= warmup) then done + [c] else done
  {
    if shown == [] {
      assert done + shown == done;
    } else {
      assert (done + shown)[|done| := c] == done + [c];
    }
  }

  lemma CompletesNext(feed: seq<Candle>)
    requires feed != []
    ensures var n := |feed| - 1;
      Completes(feed) == if feed[n].complete then Completes(feed[..n]) + [feed[n]] else Completes(feed[..n])
  {
  }

  lemma ConsumeAllNext(feed: seq<Candle>, warmup: nat, highFrequency: bool)
    requires feed != []
    ensures var n := |feed| - 1;
      ConsumeAll(feed, warmup, highFrequency)
      == Consume(ConsumeAll(feed[..n], warmup, highFrequency), feed[n], warmup, highFrequency)
  {
    hide Consume;
  }

  lemma PhaseNext(feed: seq<Candle>, warmup: nat, highFrequency: bool)
    requires Phased(feed) && feed != []
    ensures var n := |feed| - 1;
      var done, shown := Completes(feed[..n]), Shown(feed[..n], warmup, highFrequency);
      && Phased(feed[..n]) && (done != [] ==> done[|done|-1].time < feed[n].time)
      && |shown| <= 1 && (shown != [] ==> shown[0].time == feed[n].time && |done| >= warmup && highFrequency)
  {
    hide Completes, Phased;
    var n := |feed| - 1;
    if Completes(feed[..n]) != [] { LastCompleteIsEarlier(feed, n); }
    InitIsPhased(feed);
    if n > 0 { OpenPeriodGoesOn(feed); }
  }

  lemma OpenPeriodGoesOn(feed: seq<Candle>)
    requires Phased(feed) && |feed| > 1
    ensures var n := |feed| - 1; feed[n].time == feed[n - 1].time || feed[n - 1].complete
  {
    var n := |feed| - 1;
    assert feed[n] == feed[n];
  }

  lemma InitIsPhased(feed: seq<Candle>)
    requires Phased(feed) && feed != []
    ensures Phased(feed[..|feed|-1])
  {
  }

  lemma ShownNext(feed: seq<Candle>, warmup: nat, highFrequency: bool)
    requires feed != []
    ensures var done, c := Completes(feed[..|feed|-1]), feed[|feed|-1];
      Completes(feed) + Shown(feed, warmup, highFrequency)
      == if c.complete || (highFrequency && |done| >= warmup) then done + [c] else done
  {
    CompletesNext(feed);
    hide Completes;
  }

  lemma NothingYet(warmup: nat, highFrequency: bool)
    ensures ConsumeAll([], warmup, highFrequency) == Completes([]) + Shown([], warmup, highFrequency) == []
  {
  }

  /** The dataframe holds the complete candles, and the open period's partial candle if it is shown. */
  lemma {:induction false} PartialsLeaveNoTrace(feed: seq<Candle>, warmup: nat, highFrequency: bool)
    requires Phased(feed)
    ensures ConsumeAll(feed, warmup, highFrequency) == Completes(feed) + Shown(feed, warmup, highFrequency)
  {
    hide Phased, Completes, ConsumeAll, Consume, Shown;
    if feed == [] {
      NothingYet(warmup, highFrequency);
    } else {
      var init, c := feed[..|feed|-1], feed[|feed|-1];
      PhaseNext(feed, warmup, highFrequency);
      PartialsLeaveNoTrace(init, warmup, highFrequency);
      ConsumeNext(Completes(init), Shown(init, warmup, highFrequency), c, warmup, highFrequency);
      ConsumeAllNext(feed, warmup, highFrequency);
      ShownNext(feed, warmup, highFrequency);
    }
  }

  lemma {:induction false} CompletesStandAlone(feed: seq<Candle>, warmup: nat, highFrequency: bool)
    requires Phased(feed)
    ensures ConsumeAll(Completes(feed), warmup, highFrequency) == Completes(feed)
  {
    if feed != [] {
      var n := |feed| - 1;
      var done := Completes(feed[..n]);
      hide Phased, Completes, ConsumeAll, Consume, Shown;
      PhaseNext(feed, warmup, highFrequency);
      CompletesNext(feed);
      CompletesStandAlone(feed[..n], warmup, highFrequency);
      assert done + [] == done;
      if feed[n].complete {
        assert (done + [feed[n]])[..|done|] == done;
        ConsumeNext(done, [], feed[n], warmup, highFrequency);
        ConsumeAllNext(done + [feed[n]], warmup, highFrequency);
      }
    }
  }

  /** After each complete candle the dataframe is the one built from the complete candles alone,
      whether the strategy saw the partial ones or not. */
  lemma DataframeIgnoresPartials(feed: seq<Candle>, warmup: nat, highFrequency: bool, k: nat)
    requires Phased(feed) && k < |feed| && feed[k].complete
    ensures ConsumeAll(feed[..k + 1], warmup, highFrequency)
         == ConsumeAll(Completes(feed[..k + 1]), warmup, false) == Completes(feed[..k + 1])
  {
    assert Phased(feed[..k + 1]);
    PartialsLeaveNoTrace(feed[..k + 1], warmup, highFrequency);
    CompletesStandAlone(feed[..k + 1], warmup, false);
  }

  // ----- when the strategy is called -----

  /** On a feed as resampling makes it, a complete candle calls a started strategy exactly if there are at least as many
      complete candles, itself included, as the warm-up asks for, and a partial one calls a high-frequency strategy
      exactly if there were as many before it. */
  lemma CalledWhenWarm(feed: seq<Candle>, warmup: nat, highFrequency: bool, started: bool, k: nat)
    requires Phased(feed) && k < |feed|
    ensures var called :=
        Called(ConsumeAll(feed[..k], warmup, highFrequency), feed[k], warmup, highFrequency, started);
      called <==> if feed[k].complete then started && |Completes(feed[..k + 1])| >= warmup
                  else highFrequency && |Completes(feed[..k])| >= warmup
  {
    hide Phased, Completes, ConsumeAll, Shown, Called;
    var now, c := feed[..k + 1], feed[k];
    assert now[..k] == feed[..k];
    PrefixIsPhased(feed, k + 1);
    PhaseNext(now, warmup, highFrequency);
    PartialsLeaveNoTrace(feed[..k], warmup, highFrequency);
    CompletesNext(now);
    CalledOn(Completes(feed[..k]), Shown(feed[..k], warmup, highFrequency), c, warmup, highFrequency, started);
  }

  lemma CalledOn(done: seq<Candle>, shown: seq<Candle>, c: Candle, warmup: nat, highFrequency: bool, started: bool)
    requires |shown| <= 1 && (shown != [] ==> shown[0].time == c.time && |done| >= warmup)
    requires done != [] ==> done[|done| - 1].time < c.time
    ensures Called(done + shown, c, warmup, highFrequency, started)
      <==> if c.complete then started && |done| + 1 >= warmup else highFrequency && |done| >= warmup
  {
    if shown == [] { assert done + shown == done; }
  }

  lemma PrefixIsPhased(feed: seq<Candle>, k: nat)
    requires Phased(feed) && k <= |feed|
    ensures Phased(feed[..k])
  {
  }

  /** Whatever complete candles arrive, in whatever order, the rows of a strategy that is not high-frequency have
      increasing times: late candles are dropped, and a time has one row. */
  lemma {:induction false} TimesOnlyIncrease(feed: seq<Candle>, warmup: nat)
    ensures var rows := ConsumeAll(feed, warmup, false);
      forall i, j :: 0 <= i < j < |rows| ==> rows[i].time < rows[j].time
  {
    if feed != [] {
      TimesOnlyIncrease(feed[..|feed| - 1], warmup);
      ConsumeAllNext(feed, warmup, false);
      hide ConsumeAll;
    }
  }

  /** The latest candle that is complete and not late is the last row. */
  lemma LatestIsLast(rows: seq<Candle>, c: Candle, warmup: nat)
    requires c.complete && (rows != [] ==> rows[|rows| - 1].time <= c.time)
    ensures var r := Consume(rows, c, warmup, false); r != [] && r[|r| - 1] == c
  {
  }
}
