/** The dataframes that a strategy's controller hands to the Fibonacci strategy. */
module Delivery {
  import opened Types
  import opened Feed
  import opened Dataframes
  import opened Fibonacci

  /** The dataframe's columns, with the indicators computed on it. */
  function FrameOf(pair: Pair, rows: seq<Candle>, ema: seq<real>, atr: seq<real>): Frame {
    Frame(pair,
          seq(|rows|, i requires 0 <= i < |rows| => rows[i].time),
          seq(|rows|, i requires 0 <= i < |rows| => rows[i].open),
          seq(|rows|, i requires 0 <= i < |rows| => rows[i].high),
          seq(|rows|, i requires 0 <= i < |rows| => rows[i].low),
          seq(|rows|, i requires 0 <= i < |rows| => rows[i].close), ema, atr)
  }

  /** Event n is the delivery of the complete candle at[n] of its pair's feed to a strategy that is not
      high-frequency; the indicators have a value for every row. */
  ghost predicate Delivered(events: seq<Event>, feeds: map<Pair, seq<Candle>>, at: seq<nat>, warmup: nat) {
    && |at| == |events|
    && (forall p :: p in feeds ==> Phased(feeds[p]))
    && (forall n :: 0 <= n < |events| ==> DeliveredAt(events[n].frame, feeds, at[n], warmup))
    && (forall m, n :: 0 <= m < n < |events| && events[m].frame.pair == events[n].frame.pair ==> at[m] < at[n])
  }

  predicate DeliveredAt(f: Frame, feeds: map<Pair, seq<Candle>>, k: nat, warmup: nat) {
    && f.pair in feeds && k < |feeds[f.pair]| && feeds[f.pair][k].complete
    && var rows := ConsumeAll(feeds[f.pair][..k + 1], warmup, false);
       |f.ema| == |f.atr| == |rows| && f == FrameOf(f.pair, rows, f.ema, f.atr)
  }

  lemma {:induction false} CompletesGrow(feed: seq<Candle>, i: nat, j: nat)
    requires i <= j <= |feed|
    ensures Completes(feed[..i]) <= Completes(feed[..j])
  {
    if i < j {
      CompletesGrow(feed, i, j - 1);
      assert feed[..j][..j - 1] == feed[..j - 1];
      CompletesNext(feed[..j]);
    }
  }

  lemma {:induction false} CompletesIncrease(feed: seq<Candle>, k: nat)
    requires Phased(feed) && k <= |feed|
    ensures var done := Completes(feed[..k]); forall i, j :: 0 <= i < j < |done| ==> done[i].time < done[j].time
  {
    if k > 0 {
      CompletesIncrease(feed, k - 1);
      assert feed[..k][..k - 1] == feed[..k - 1];
      CompletesNext(feed[..k]);
      if Completes(feed[..k - 1]) != [] { LastCompleteIsEarlier(feed, k - 1); }
      hide Phased, Completes;
    }
  }

  /** What is delivered is made of the complete candles. */
  lemma FrameIsOfCompletes(f: Frame, feeds: map<Pair, seq<Candle>>, k: nat, warmup: nat)
    requires DeliveredAt(f, feeds, k, warmup) && Phased(feeds[f.pair])
    ensures f == FrameOf(f.pair, Completes(feeds[f.pair][..k + 1]), f.ema, f.atr) && Fibonacci.Regular(f)
  {
    hide Phased, Completes, ConsumeAll;
    DataframeIgnoresPartials(feeds[f.pair], warmup, false, k);
    CompletesIncrease(feeds[f.pair], k + 1);
  }

  lemma LongerRowsLongerFrame(pair: Pair, a: seq<Candle>, b: seq<Candle>, ema: seq<real>, atr: seq<real>,
                              ema': seq<real>, atr': seq<real>)
    requires a <= b
    ensures Prefix(FrameOf(pair, a, ema, atr), FrameOf(pair, b, ema', atr'))
  {
  }

  /** Delivered dataframes of a pair only grow. */
  lemma DeliveredFramesGrow(events: seq<Event>, feeds: map<Pair, seq<Candle>>, at: seq<nat>, warmup: nat)
    requires Delivered(events, feeds, at, warmup)
    ensures Growing(events)
  {
    hide Phased, Completes, DeliveredAt, FrameOf, Prefix, Fibonacci.Regular;
    forall n | 0 <= n < |events| ensures Fibonacci.Regular(events[n].frame) {
      DeliveredPair(events[n].frame, feeds, at[n], warmup);
      FrameIsOfCompletes(events[n].frame, feeds, at[n], warmup);
    }
    forall m, n | 0 <= m < n < |events| && events[m].frame.pair == events[n].frame.pair
      ensures Prefix(events[m].frame, events[n].frame)
    {
      var f, g := events[m].frame, events[n].frame;
      var feed := DeliveredFeed(f, g, feeds, at[m], at[n], warmup);
      FrameIsOfCompletes(f, feeds, at[m], warmup);
      FrameIsOfCompletes(g, feeds, at[n], warmup);
      CompletesGrow(feed, at[m] + 1, at[n] + 1);
      var a, b := Completes(feed[..at[m] + 1]), Completes(feed[..at[n] + 1]);
      LongerRowsLongerFrame(f.pair, a, b, f.ema, f.atr, g.ema, g.atr);
    }
  }

  lemma DeliveredPair(f: Frame, feeds: map<Pair, seq<Candle>>, k: nat, warmup: nat)
    requires DeliveredAt(f, feeds, k, warmup)
    ensures f.pair in feeds && k < |feeds[f.pair]|
  {
  }

  lemma DeliveredFeed(f: Frame, g: Frame, feeds: map<Pair, seq<Candle>>, i: nat, j: nat, warmup: nat)
    returns (feed: seq<Candle>)
    requires DeliveredAt(f, feeds, i, warmup) && DeliveredAt(g, feeds, j, warmup) && f.pair == g.pair && i < j
    ensures f.pair in feeds && feed == feeds[f.pair] && i < j < |feed|
  {
    feed := feeds[f.pair];
  }

  /** So over every run of deliveries, whatever partial candles the feeds contain and whatever the indicators and
      the broker say, no leg of a pair is bought twice. */
  lemma OneTradePerDeliveredLeg(
    events: seq<Event>, feeds: map<Pair, seq<Candle>>, at: seq<nat>, warmup: nat,
    pivot: nat, level: real, m: nat, n: nat)
    requires Delivered(events, feeds, at, warmup)
    requires m < n < |events| && events[m].frame.pair == events[n].frame.pair
    ensures Growing(events)
    ensures ActionAt(events, pivot, level, m).Bought? && ActionAt(events, pivot, level, n).Bought? ==>
      ActionAt(events, pivot, level, m).leg.lowIdx < ActionAt(events, pivot, level, n).leg.lowIdx
  {
    hide Delivered, ActionAt, Prefix, Fibonacci.Regular;
    DeliveredFramesGrow(events, feeds, at, warmup);
    if ActionAt(events, pivot, level, m).Bought? && ActionAt(events, pivot, level, n).Bought? {
      OneTradePerLeg(events, pivot, level, m, n);
    }
  }
}
