/** Resampling a candle series to a larger timeframe, partial candles included. */
module Feed {
  import opened Types
  import opened Calendar
  import opened Candles
  import opened Multiples
  import opened Sorting

  /** The outcome of a resampling. It crashes when no source candle starts a target period. */
  datatype Outcome = Resampled(candles: seq<Candle>) | UnknownTimeframe | Crash

  /** A source candle as it enters the output: fresh after a complete candle, else merged into the
      period so far. */
  function Next(out: seq<Candle>, c: Candle, complete: bool): Candle {
    var alone := c.(complete := complete);
    if out == [] || out[|out|-1].complete then alone
    else
      var prev := out[|out|-1];
      alone.(time := prev.time, open := prev.open, high := MaxReal(prev.high, c.high),
             low := MinReal(prev.low, c.low), volume := c.volume + prev.volume)
  }

  predicate Ends(c: Candle, r: Resampling) { IsLastCandlePeriod(c.time, r) == Some(true) }

  predicate Starts(c: Candle, r: Resampling) { IsFirstCandlePeriod(c.time, r) == Some(true) }

  /** The output before trimming, one candle per source candle. */
  function Fold(source: seq<Candle>, r: Resampling): (out: seq<Candle>)
    ensures |out| == |source|
  {
    if source == [] then []
    else
      var out, c := Fold(source[..|source|-1], r), source[|source|-1];
      out + [Next(out, c, Ends(c, r))]
  }

  /** The source candles before the first one that starts a target period. */
  function Skipped(source: seq<Candle>, r: Resampling): (n: nat)
    ensures n <= |source| && (forall i :: 0 <= i < n ==> !Starts(source[i], r))
    ensures n < |source| ==> Starts(source[n], r)
  {
    if source == [] || Starts(source[0], r) then 0 else 1 + Skipped(source[1..], r)
  }

  /** Only the very last output is dropped when it is incomplete. */
  function Trimmed(out: seq<Candle>): seq<Candle> {
    if out != [] && !out[|out|-1].complete then out[..|out|-1] else out
  }

  predicate Known(r: Resampling) { r.duration.Some? && (r.source == r.target || Parse(r.target).Some?) }

  lemma KnownDecides(t: int, r: Resampling)
    ensures IsFirstCandlePeriod(t, r).Some? <==> Known(r)
    ensures Known(r) ==> IsLastCandlePeriod(t, r).Some?
  {
  }

  method Resample(source: seq<Candle>, r: Resampling) returns (result: Outcome)
    ensures source == [] ==> result == Crash
    ensures source != [] && !Known(r) ==> result == UnknownTimeframe
    ensures source != [] && Known(r) ==>
      var n := Skipped(source, r);
      result == if n == |source| then Crash else Resampled(Trimmed(Fold(source[n..], r)))
  {
    hide Known, IsFirstCandlePeriod, Fold;
    var i := 0;
    while i < |source|
      invariant 0 <= i <= |source| && (i > 0 ==> Known(r))
      invariant Skipped(source, r) == i + Skipped(source[i..], r)
    {
      KnownDecides(source[i].time, r);
      var ok := IsFirstCandlePeriod(source[i].time, r);
      if ok.None? { return UnknownTimeframe; }
      if ok.value { break; }
      assert source[i..][1..] == source[i + 1..];
      i := i + 1;
    }
    if i == |source| { return Crash; }
    var candles := ResampleFrom(source, i, r);
    if !candles[|candles| - 1].complete { candles := candles[..|candles| - 1]; }
    result := Resampled(candles);
  }

  method ResampleFrom(source: seq<Candle>, n: nat, r: Resampling) returns (candles: seq<Candle>)
    requires n <= |source| && Known(r)
    ensures candles == Fold(source[n..], r)
  {
    candles := [];
    hide Known, IsLastCandlePeriod;
    for i := n to |source|
      invariant candles == Fold(source[n..i], r)
    {
      var candle := source[i];
      KnownDecides(candle.time, r);
      var last := IsLastCandlePeriod(candle.time, r);
      candle := candle.(complete := last.value);
      var lastIndex := |candles| - 1;
      if lastIndex >= 0 && !candles[lastIndex].complete {
        candle := candle.(time := candles[lastIndex].time,
                          open := candles[lastIndex].open,
                          high := MaxReal(candles[lastIndex].high, candle.high),
                          low := MinReal(candles[lastIndex].low, candle.low),
                          volume := candle.volume + candles[lastIndex].volume);
      }
      assert source[n..i + 1][..i - n] == source[n..i];
      candles := candles + [candle];
    }
    assert source[n..|source|] == source[n..];
  }

  // ----- what each output candle aggregates -----

  /** Where the run that output k belongs to begins. */
  function RunStart(out: seq<Candle>, k: nat): (s: nat)
    requires k < |out|
    ensures s <= k && (s > 0 ==> out[s - 1].complete)
    ensures forall j :: s <= j < k ==> !out[j].complete
  {
    if k == 0 || out[k - 1].complete then k else RunStart(out, k - 1)
  }

  function VolumeOf(run: seq<Candle>): real {
    if run == [] then 0.0 else VolumeOf(run[..|run|-1]) + run[|run|-1].volume
  }

  /** First open and time, latest close, highest high, lowest low and total volume of a run. */
  ghost predicate Aggregate(c: Candle, run: seq<Candle>) {
    && run != []
    && c.pair == run[|run|-1].pair && c.time == run[0].time && c.updatedAt == run[|run|-1].updatedAt
    && c.open == run[0].open && c.close == run[|run|-1].close
    && (forall i :: 0 <= i < |run| ==> run[i].high <= c.high) && (exists i :: 0 <= i < |run| && run[i].high == c.high)
    && (forall i :: 0 <= i < |run| ==> c.low <= run[i].low) && (exists i :: 0 <= i < |run| && run[i].low == c.low)
    && c.volume == VolumeOf(run)
  }

  lemma AggregateExtends(prev: Candle, run: seq<Candle>, c: Candle, complete: bool)
    requires Aggregate(prev, run) && !prev.complete
    ensures Aggregate(Next([prev], c, complete), run + [c])
  {
    var r, n := run + [c], Next([prev], c, complete);
    assert r[..|run|] == run;
    var h :| 0 <= h < |run| && run[h].high == prev.high;
    var l :| 0 <= l < |run| && run[l].low == prev.low;
    assert r[h].high == prev.high && r[|run|].high == c.high;
    assert r[l].low == prev.low && r[|run|].low == c.low;
  }

  lemma AggregateStep(prev: Candle, source: seq<Candle>, s: nat, k: nat, complete: bool)
    requires s < k < |source| && Aggregate(prev, source[s..k]) && !prev.complete
    ensures Aggregate(Next([prev], source[k], complete), source[s..k + 1])
  {
    hide Aggregate, Next;
    AggregateExtends(prev, source[s..k], source[k], complete);
    assert source[s..k + 1] == source[s..k] + [source[k]];
  }

  lemma AggregateFirst(source: seq<Candle>, k: nat, complete: bool)
    requires k < |source|
    ensures Aggregate(source[k].(complete := complete), source[k..k + 1])
  {
    var run := source[k..k + 1];
    assert run[0].high == source[k].high && run[0].low == source[k].low;
    assert run[..0] == [] && VolumeOf([]) == 0.0;
  }

  /** The fold extends pointwise: output k depends on the source up to k only. */
  lemma {:induction false} FoldAt(source: seq<Candle>, r: Resampling, k: nat)
    requires k < |source|
    ensures Fold(source, r)[..k] == Fold(source[..k], r)
    ensures Fold(source, r)[k] == Next(Fold(source[..k], r), source[k], Ends(source[k], r))
  {
    var last := |source| - 1;
    hide Ends, Next;
    if k < last {
      FoldAt(source[..last], r, k);
      assert source[..last][..k] == source[..k];
    }
  }

  lemma RunStartNext(out: seq<Candle>, k: nat)
    requires k < |out|
    ensures RunStart(out, k) == if k == 0 || out[k - 1].complete then k else RunStart(out, k - 1)
    ensures k > 0 ==> RunStart(out, k - 1) < k
  {
  }

  /** Every output candle is complete exactly when its source candle ends a target period, and
      aggregates the source candles of its run. */
  lemma {:induction false} OutputsAggregateRuns(source: seq<Candle>, r: Resampling, k: nat)
    requires k < |source|
    ensures var out := Fold(source, r);
      && (out[k].complete <==> Ends(source[k], r))
      && Aggregate(out[k], source[RunStart(out, k)..k + 1])
  {
    var out := Fold(source, r);
    NextOutput(source, r, k);
    RunStartNext(out, k);
    hide Ends, Fold, Aggregate, Next, RunStart;
    if k == 0 || out[k - 1].complete {
      AggregateFirst(source, k, Ends(source[k], r));
    } else {
      OutputsAggregateRuns(source, r, k - 1);
      AggregateStep(out[k - 1], source, RunStart(out, k - 1), k, Ends(source[k], r));
    }
  }

  /** Output k in terms of the output before it. */
  lemma NextOutput(source: seq<Candle>, r: Resampling, k: nat)
    requires k < |source|
    ensures var out := Fold(source, r);
      && (out[k].complete <==> Ends(source[k], r))
      && out[k] == if k == 0 || out[k - 1].complete then source[k].(complete := Ends(source[k], r))
                   else Next([out[k - 1]], source[k], Ends(source[k], r))
  {
    FoldAt(source, r, k);
    hide Ends, Fold;
    if k > 0 { assert Fold(source, r)[..k][k - 1] == Fold(source, r)[k - 1]; }
  }

  /** The total volume of the complete candles. */
  function CompleteVolume(out: seq<Candle>): real {
    if out == [] then 0.0
    else CompleteVolume(out[..|out|-1]) + if out[|out|-1].complete then out[|out|-1].volume else 0.0
  }

  /** No volume is lost: complete candles carry the source volume up to the last completed one, and
      the running period carries the rest. */
  lemma {:induction false} VolumeIsConserved(source: seq<Candle>, r: Resampling)
    ensures var out := Fold(source, r);
      CompleteVolume(out) + (if out == [] || out[|out|-1].complete then 0.0 else out[|out|-1].volume)
      == VolumeOf(source)
  {
    if source != [] {
      hide Ends;
      VolumeIsConserved(source[..|source|-1], r);
      var out := Fold(source, r);
      assert out[..|out|-1] == Fold(source[..|source|-1], r);
    }
  }

  // ----- calendar periods -----

  predicate GapFree(source: seq<Candle>, step: int) {
    forall i {:trigger source[i]} :: 0 < i < |source| ==> source[i].time == source[i - 1].time + step
  }

  lemma {:induction false} TimeAt(source: seq<Candle>, step: int, i: nat, n: nat)
    requires GapFree(source, step) && i + n < |source|
    ensures source[i + n].time == source[i].time + n * step
  {
    if n > 0 {
      TimeAt(source, step, i, n - 1);
      assert source[i + n].time == source[i + n - 1].time + step;
      assert n * step == (n - 1) * step + step;
    }
  }

  lemma NextMinute(t: int, step: int)
    requires t % 60 == 0 && step % 60 == 0
    ensures (t + step) % 60 == 0
  {
  }

  lemma {:induction false} MinuteAligned(source: seq<Candle>, step: int, i: nat)
    requires GapFree(source, step) && i < |source| && source[0].time % 60 == 0 && step % 60 == 0
    ensures source[i].time % 60 == 0
  {
    if i > 0 {
      assert source[i].time == source[i - 1].time + step;
      hide GapFree;
      MinuteAligned(source, step, i - 1);
      NextMinute(source[i - 1].time, step);
    }
  }

  /** A gap-free, minute-aligned source whose step divides the target period and whose first candle
      starts one. */
  predicate Regular(source: seq<Candle>, r: Resampling, step: int, p: Period) {
    && source != [] && r.source != r.target && r.duration == Some(step) && Parse(r.target) == Some(p)
    && Multiple(step, 60) && Multiple(Length(p), step) && step > 0
    && GapFree(source, step) && Multiple(source[0].time, 60) && Starts(source[0], r)
  }

  lemma EndsOnBoundary(source: seq<Candle>, r: Resampling, step: int, p: Period, i: nat)
    requires Regular(source, r, step, p) && i < |source|
    ensures Ends(source[i], r) <==> Boundary(source[i].time + step, p)
  {
    hide Parse, EndsAt, Boundary, GapFree, Starts;
    MinuteAligned(source, step, i);
    NextMinute(source[i].time, step);
    hide Multiple;
    PeriodsEndOnBoundaries(source[i].time + step, p);
  }

  lemma FirstOnBoundary(source: seq<Candle>, r: Resampling, step: int, p: Period)
    requires Regular(source, r, step, p)
    ensures Boundary(source[0].time, p)
  {
    assert source[0].time % 60 == 0;
    hide Parse, EndsAt, Boundary, Multiple;
    PeriodsEndOnBoundaries(source[0].time, p);
  }

  lemma RunsStartOnBoundaries(source: seq<Candle>, r: Resampling, step: int, p: Period, k: nat)
    requires Regular(source, r, step, p) && k < |source|
    requires k == 0 || Fold(source, r)[k - 1].complete
    ensures Boundary(source[k].time, p)
  {
    hide Boundary, Ends, Next, Starts, Multiple, Parse;
    if k == 0 {
      FirstOnBoundary(source, r, step, p);
    } else {
      NextOutput(source, r, k - 1);
      EndsOnBoundary(source, r, step, p, k - 1);
      assert source[k].time == source[k - 1].time + step;
    }
  }

  /** A run whose candles of length step begin on a boundary, end on one and meet none in between
      fills one period. */
  lemma RunFillsPeriod(origin: int, start: int, n: int, step: int, period: int)
    requires n > 0 && Multiple(period, step)
    requires Multiple(start - origin, period) && Multiple(start + n * step - origin, period)
    ensures n >= period / step && period / step * step == period && period / step >= 1
    ensures Multiple(start + period - origin, period)
  {
    Div(period, step);
    Scaled(step, n);
    Scaled(step, period / step);
    Apart(start - origin, start + n * step - origin, period);
    Fewer(n, period / step, step);
    NextMultiple(start - origin, period);
    assert start + period - origin == start - origin + period;
  }

  /** Each complete candle of a gap-free, minute-aligned source covers exactly one period of the
      target's calendar: it begins on a boundary and ends on the next one. */
  lemma CompleteCandlesFillPeriods(source: seq<Candle>, r: Resampling, step: int, p: Period, k: nat)
    requires Regular(source, r, step, p) && k < |source| && Fold(source, r)[k].complete
    ensures var out := Fold(source, r);
      var s := RunStart(out, k);
      && Boundary(out[k].time, p) && out[k].time == source[s].time
      && source[k].time + step == out[k].time + Length(p)
      && (k + 1 - s) * step == Length(p)
  {
    hide Ends, Next, Starts, Fold, Multiple, Parse, Boundary, Length, GapFree, RunStart;
    var out := Fold(source, r);
    var s := RunStart(out, k);
    RunTimes(source, r, k);
    RunsStartOnBoundaries(source, r, step, p, s);
    EndsOnBoundary(source, r, step, p, k);
    RunLength(source, r, step, p, out, s, k);
  }

  lemma RunTimes(source: seq<Candle>, r: Resampling, k: nat)
    requires k < |source|
    ensures var out := Fold(source, r);
      (out[k].complete <==> Ends(source[k], r)) && out[k].time == source[RunStart(out, k)].time
  {
    OutputsAggregateRuns(source, r, k);
    hide Ends, Next, Fold;
  }

  lemma OneMore(n: int, step: int)
    ensures (n - 1) * step + step == n * step
  {
  }

  lemma RunLength(source: seq<Candle>, r: Resampling, step: int, p: Period, out: seq<Candle>, s: nat, k: nat)
    requires Regular(source, r, step, p) && s <= k < |source| && out == Fold(source, r)
    requires forall j :: s <= j < k ==> !out[j].complete
    requires Boundary(source[s].time, p) && Boundary(source[k].time + step, p)
    ensures (k + 1 - s) * step == Length(p)
    ensures source[k].time + step == source[s].time + Length(p)
  {
    hide Parse, Length, Origin, Ends, Next, Starts, Fold, Multiple, GapFree;
    var n := k + 1 - s;
    TimeAt(source, step, s, n - 1);
    OneMore(n, step);
    RunFillsPeriod(Origin(p), source[s].time, n, step, Length(p));
    var full := Length(p) / step;
    if n > full {
      TimeAt(source, step, s, full - 1);
      OneMore(full, step);
      EndsOnBoundary(source, r, step, p, s + full - 1);
      NextOutput(source, r, s + full - 1);
      assert false;
    }
  }

  // ----- order of the feed -----

  /** A source read from a file: times increase, and each candle was updated at its time. */
  predicate Increasing(source: seq<Candle>) {
    && (forall i, j :: 0 <= i < j < |source| ==> source[i].time < source[j].time)
    && (forall i :: 0 <= i < |source| ==> source[i].updatedAt == source[i].time)
  }

  /** Within a run the time stands still while updates advance; a new run has a later time. */
  predicate Phased(out: seq<Candle>) {
    && (forall i, j :: 0 <= i < j < |out| ==> out[i].updatedAt < out[j].updatedAt)
    && (forall i, j :: 0 <= i < j < |out| ==> out[i].time <= out[j].time)
    && (forall k {:trigger out[k]} :: 0 < k < |out| ==>
          if out[k - 1].complete then out[k - 1].time < out[k].time else out[k].time == out[k - 1].time)
  }

  lemma {:induction false} OutputTimes(source: seq<Candle>, r: Resampling, k: nat)
    requires Increasing(source) && k < |source|
    ensures var out := Fold(source, r);
      && out[k].updatedAt == source[k].time && out[k].time <= source[k].time
      && (forall j :: 0 <= j < k ==> out[j].time <= out[k].time)
      && (k > 0 ==> if out[k - 1].complete then out[k - 1].time < out[k].time else out[k].time == out[k - 1].time)
  {
    NextOutput(source, r, k);
    hide Ends, Fold;
    if k > 0 { OutputTimes(source, r, k - 1); }
  }

  lemma FoldIsPhased(source: seq<Candle>, r: Resampling)
    requires Increasing(source)
    ensures Phased(Fold(source, r))
  {
    var out := Fold(source, r);
    forall k | 0 <= k < |out|
      ensures out[k].updatedAt == source[k].time
      ensures forall j :: 0 <= j < k ==> out[j].time <= out[k].time
      ensures k > 0 ==> if out[k - 1].complete then out[k - 1].time < out[k].time else out[k].time == out[k - 1].time
    {
      OutputTimes(source, r, k);
    }
    hide Fold;
  }

  lemma PhasedIsSorted(feed: seq<Candle>)
    requires Phased(feed)
    ensures StrictlySorted(feed, CandleLess)
  {
    forall i, j | 0 <= i < j < |feed| ensures CandleLess(feed[i], feed[j]) {}
  }

  lemma TrimmedIsPhased(out: seq<Candle>)
    requires Phased(out)
    ensures Phased(Trimmed(out))
  {
  }

  /** The resampled feed of one pair is strictly increasing in the order of candles. */
  lemma FeedIsStrictlySorted(source: seq<Candle>, r: Resampling)
    requires Increasing(source)
    ensures var feed := Trimmed(Fold(source, r)); Phased(feed) && StrictlySorted(feed, CandleLess)
  {
    FoldIsPhased(source, r);
    hide Fold, Phased, CandleLess;
    TrimmedIsPhased(Fold(source, r));
    PhasedIsSorted(Trimmed(Fold(source, r)));
  }

  // ----- what trimming and equal timeframes do -----

  /** One output a source candle, but for a last one that does not end a period; no complete candle is lost. */
  lemma TrimmedDropsOneCandle(source: seq<Candle>, r: Resampling)
    requires source != []
    ensures var feed, last := Trimmed(Fold(source, r)), source[|source| - 1];
      && |feed| == (if Ends(last, r) then |source| else |source| - 1)
      && CompleteVolume(feed) == CompleteVolume(Fold(source, r))
      && feed == Fold(source, r)[..|feed|]
  {
    hide Ends;
    NextOutput(source, r, |source| - 1);
  }

  /** Resampling to the same timeframe changes nothing but that every candle is complete. */
  lemma {:induction false} SameTimeframeIsIdentity(source: seq<Candle>, r: Resampling)
    requires r.source == r.target
    ensures |Fold(source, r)| == |source| && Trimmed(Fold(source, r)) == Fold(source, r)
    ensures forall k :: 0 <= k < |source| ==> Fold(source, r)[k] == source[k].(complete := true)
  {
    if source != [] {
      SameTimeframeIsIdentity(source[..|source| - 1], r);
      NextOutput(source, r, |source| - 1);
      FoldAt(source, r, |source| - 1);
      hide Next, Fold;
      var init := source[..|source| - 1];
      assert forall k :: 0 <= k < |init| ==> init[k] == source[k];
      assert forall k :: 0 <= k < |init| ==> Fold(source, r)[..|init|][k] == Fold(source, r)[k];
    }
  }
}
