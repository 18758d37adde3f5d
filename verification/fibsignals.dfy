/** What the Fibonacci strategy acts on: the swings it knows and the candles it buys. */
module FibonacciSignals {
  import opened Types
  import opened Fibonacci

  // ----- the buy -----

  /** The level at a part of the way down from the swing high to the swing low. */
  function Level(leg: Leg, part: real): real
    requires leg.Leg?
  {
    leg.high - (leg.high - leg.low) * part
  }

  /** The leg known before the last candle is large, fresh and not traded yet. */
  predicate FreshLeg(f: Frame, traded: map<Pair, int>, leg: Leg) {
    var i := |f.close| - 1;
    && i >= 1 && |f.atr| == |f.time| == |f.close| && leg.Leg? && leg.lowIdx < |f.time|
    && f.atr[i - 1] > 0.0 && leg.high - leg.low >= 3.0 * f.atr[i - 1]
    && i - leg.highIdx <= 20
    && (if f.pair in traded then traded[f.pair] != f.time[leg.lowIdx] else f.time[leg.lowIdx] != ZERO_TIME)
  }

  /** In an uptrend the pullback has touched the entry level, not the stop level, and the candle closes green between
      entry level and swing high. */
  predicate Turning(f: Frame, leg: Leg, entry: real)
    requires leg.Leg?
  {
    var i := |f.close| - 1;
    && i >= 1 && |f.ema| == |f.open| == |f.low| == |f.close|
    && f.ema[i] < f.close[i] && f.open[i] < f.close[i]
    && Level(leg, entry) < f.close[i] < leg.high
    && Level(leg, 0.786) < f.low[i - 1] && Level(leg, 0.786) < f.low[i]
    && (f.low[i - 1] <= Level(leg, entry) || f.low[i] <= Level(leg, entry))
  }

  /** Nearly nothing of the asset is held, and there is enough of the quote coin. */
  predicate Solvent(b: Broker, close: real) {
    b.position.Some? && Worth(b.position.value.0, close) < 10.0 && b.position.value.1 >= 10.0
  }

  /** A buy is sent exactly if the leg is fresh, the candle turns and the wallet is solvent; if the broker accepts it,
      the trade spends the whole quote amount and is bracketed by the swing high and the stop level. */
  lemma BuysIff(f: Frame, traded: map<Pair, int>, b: Broker, pivot: nat, entry: real)
    requires Fibonacci.Regular(f)
    ensures var a, i := Act(f, traded, b, pivot, entry), |f.close| - 1;
      if i >= 1
         && var leg := After(f.high, f.low, pivot, i).cur;
            FreshLeg(f, traded, leg) && Turning(f, leg, entry) && Solvent(b, f.close[i])
      then
        var leg := After(f.high, f.low, pivot, i).cur;
        a == if b.bought.None? then Refused
             else Bought(leg, b.position.value.1, b.bought.value, leg.high, Level(leg, 0.786))
      else a == Hold
  {
    hide After, StrictlyIncreasing, Turning, Candidate, Signals, Affords, Solvent, Level, FibLevel;
    var i := |f.close| - 1;
    if i >= 1 {
      var leg := After(f.high, f.low, pivot, i).cur;
      if leg.Leg? {
        LegIsFresh(f, traded, pivot);
        CandleTurns(f, leg, entry);
        SameLevel(leg, STOP_LEVEL);
        WalletIsSolvent(f, b);
      }
    }
    NoCandidate(f, pivot);
  }

  lemma NoCandidate(f: Frame, pivot: nat)
    requires Fibonacci.Regular(f)
    ensures |f.close| < 2 || After(f.high, f.low, pivot, |f.close| - 1).cur.NoLeg? ==> Candidate(f, pivot).NoLeg?
  {
    hide After;
  }

  lemma LegIsFresh(f: Frame, traded: map<Pair, int>, pivot: nat)
    requires Fibonacci.Regular(f) && |f.close| >= 2 && After(f.high, f.low, pivot, |f.close| - 1).cur.Leg?
    ensures var i := |f.close| - 1;
      var leg, c := After(f.high, f.low, pivot, i).cur, Candidate(f, pivot);
      if c.NoLeg? then !FreshLeg(f, traded, leg) || f.close[i] <= f.ema[i]
      else c == leg && f.ema[i] < f.close[i] && leg.lowIdx < |f.time|
           && (FreshLeg(f, traded, leg) <==> TradedAt(traded, f.pair) != f.time[leg.lowIdx])
  {
    hide After, StrictlyIncreasing;
    AnchorIsConfirmed(f.high, f.low, pivot, |f.close| - 1);
  }

  lemma CandleTurns(f: Frame, leg: Leg, entry: real)
    requires Fibonacci.Regular(f) && |f.close| >= 2 && leg.Leg?
    ensures var i := |f.close| - 1; Turning(f, leg, entry) <==> f.ema[i] < f.close[i] && Signals(f, leg, entry)
  {
    hide StrictlyIncreasing;
    SameLevel(leg, entry);
    SameLevel(leg, STOP_LEVEL);
    hide Level, FibLevel;
  }

  lemma WalletIsSolvent(f: Frame, b: Broker)
    requires Fibonacci.Regular(f) && |f.close| >= 1
    ensures Solvent(b, f.close[|f.close| - 1]) <==> Affords(f, b)
  {
    hide StrictlyIncreasing;
    if b.position.Some? {
      var x, close := b.position.value.0, f.close[|f.close| - 1];
      assert Worth(x, close) == x * close;
      assert Affords(f, b) <==> x * close < MIN_ORDER && b.position.value.1 >= MIN_ORDER;
    }
  }

  lemma SameLevel(leg: Leg, part: real)
    requires leg.Leg?
    ensures Level(leg, part) == FibLevel(leg.low, leg.high, part)
  {
  }

  // ----- the swings -----

  /** A pivot low is the first lowest candle of the window around it, and has the whole window. */
  lemma PivotIsFirstLowest(low: seq<real>, j: int, pivot: nat)
    ensures IsPivotLow(low, j, pivot) <==>
      && pivot <= j < |low| - pivot
      && forall k :: j - pivot <= k <= j + pivot ==> low[j] <= low[k] && (low[k] == low[j] ==> j <= k)
  {
  }

  /** p is a pivot low of which all candles of its window come before candle t, and the latest one. */
  ghost predicate Latest(low: seq<real>, pivot: nat, t: nat, p: nat) {
    && p + pivot < t && IsPivotLow(low, p, pivot)
    && forall q :: p < q && q + pivot < t ==> !IsPivotLow(low, q, pivot)
  }

  /** No candle from p to t undercuts candle p. */
  ghost predicate Holds(low: seq<real>, p: nat, t: nat) {
    p < t <= |low| && forall k :: p <= k < t ==> low[p] <= low[k]
  }

  lemma LatestNext(low: seq<real>, pivot: nat, t: nat, p: nat)
    requires t < |low|
    ensures IsPivotLow(low, t - pivot, pivot) ==>
      (Latest(low, pivot, t + 1, p) && Holds(low, p, t + 1) <==> p == t - pivot)
    ensures !IsPivotLow(low, t - pivot, pivot) ==>
      (Latest(low, pivot, t + 1, p) && Holds(low, p, t + 1) <==>
         Latest(low, pivot, t, p) && Holds(low, p, t) && low[p] <= low[t])
  {
    var j := t - pivot;
    if IsPivotLow(low, j, pivot) { PivotHolds(low, j, pivot); }
    hide IsPivotLow;
    if IsPivotLow(low, j, pivot) && p < j {
      assert !Latest(low, pivot, t + 1, p);
    }
  }

  lemma PivotNext(d: Detector, high: seq<real>, low: seq<real>, pivot: nat, t: nat, p: nat)
    requires t < |high| == |low| && (d.lastPivot.Some? ==> d.lastPivot.value + pivot < t)
    ensures Confirmed(Extended(Unbroken(d, low, t), high, low, t), high, low, pivot, t).lastPivot == Some(p) <==>
      if IsPivotLow(low, t - pivot, pivot) then p == t - pivot
      else d.lastPivot == Some(p) && low[p] <= low[t]
  {
    hide IsPivotLow, FirstMax;
  }

  lemma AnchorsEnd(high: seq<real>, low: seq<real>, pivot: nat, t: nat)
    requires t <= |high| == |low|
    ensures var d := After(high, low, pivot, t); d.lastPivot.Some? ==> d.lastPivot.value + pivot < t
  {
    LegsAreSound(high, low, pivot, t);
    hide After, IsPivotLow;
  }

  /** The detector remembers the latest pivot exactly as long as it holds. */
  lemma {:induction false} RemembersLatestIff(high: seq<real>, low: seq<real>, pivot: nat, t: nat, p: nat)
    requires t <= |high| == |low|
    ensures After(high, low, pivot, t).lastPivot == Some(p) <==> Latest(low, pivot, t, p) && Holds(low, p, t)
  {
    hide After, IsPivotLow, Confirmed, Extended, Unbroken, Latest;
    if t == 0 {
      AfterNone(high, low, pivot);
    } else {
      RemembersLatestIff(high, low, pivot, t - 1, p);
      AfterNext(high, low, pivot, t - 1);
      AnchorsEnd(high, low, pivot, t - 1);
      PivotNext(After(high, low, pivot, t - 1), high, low, pivot, t - 1, p);
      LatestNext(low, pivot, t - 1, p);
    }
  }

  /** What becomes known on candle t. A swing low that is not undercut keeps its leg: a higher high moves the leg's end
      to it, and its start to the latest pivot if that still holds and lies after the old end. Without a leg, or when
      its low is undercut, one starts exactly at a pivot that candle t confirms. */
  lemma NextLeg(high: seq<real>, low: seq<real>, pivot: nat, t: nat)
    requires t < |high| == |low|
    ensures var cur, next, j := After(high, low, pivot, t).cur, After(high, low, pivot, t + 1).cur, t - pivot;
      if cur.NoLeg? || low[t] < cur.low then
        && (next.Leg? <==> IsPivotLow(low, j, pivot))
        && (next.Leg? ==> next.lowIdx == j && next.low == low[j])
      else if high[t] <= cur.high then next == cur
      else
        && next.Leg? && next.highIdx == t && next.high == high[t] && next.lowIdx < |low| && next.low == low[next.lowIdx]
        && (next.lowIdx != cur.lowIdx ==> Restarts(low, pivot, t, cur, next.lowIdx))
        && (forall p: nat :: Restarts(low, pivot, t, cur, p) ==> next.lowIdx == p)
  {
    hide After, IsPivotLow, FirstMax, Latest;
    var d := After(high, low, pivot, t);
    AfterNext(high, low, pivot, t);
    LegsAreSound(high, low, pivot, t);
    forall p: nat ensures d.lastPivot == Some(p) <==> Latest(low, pivot, t, p) && Holds(low, p, t) {
      RemembersLatestIff(high, low, pivot, t, p);
    }
    if IsPivotLow(low, t - pivot, pivot) { PivotHolds(low, t - pivot, pivot); }
    if d.lastPivot.Some? { assert Latest(low, pivot, t, d.lastPivot.value); }
    forall p: nat | Restarts(low, pivot, t, d.cur, p) ensures Holds(low, p, t) && low[p] <= low[t] {
      RestartHolds(low, pivot, t, d.cur, p);
    }
  }

  /** p is the latest pivot, no candle up to t undercuts it, and it lies after the end of the leg. */
  ghost predicate Restarts(low: seq<real>, pivot: nat, t: nat, cur: Leg, p: nat) {
    cur.Leg? && Latest(low, pivot, t, p) && Holds(low, p, t + 1) && cur.highIdx < p
  }

  lemma RestartHolds(low: seq<real>, pivot: nat, t: nat, cur: Leg, p: nat)
    requires Restarts(low, pivot, t, cur, p)
    ensures Holds(low, p, t) && low[p] <= low[t]
  {
    hide IsPivotLow;
  }

  /** While the latest pivot holds, a leg is known, from that pivot or an earlier one. */
  lemma {:induction false} LegIsKnown(high: seq<real>, low: seq<real>, pivot: nat, t: nat, p: nat)
    requires t <= |high| == |low| && Latest(low, pivot, t, p) && Holds(low, p, t)
    ensures var cur := After(high, low, pivot, t).cur; cur.Leg? && cur.lowIdx <= p
  {
    hide After, IsPivotLow, SoundHigh, SoundPivot;
    LatestNext(low, pivot, t - 1, p);
    NextLeg(high, low, pivot, t - 1);
    LegsAreSound(high, low, pivot, t - 1);
    if !IsPivotLow(low, t - 1 - pivot, pivot) { LegIsKnown(high, low, pivot, t - 1, p); }
  }
}
