/** The online swing detector of the Fibonacci strategy and its memory of traded legs. */
module Fibonacci {
  import opened Types

  /** An up-leg from a swing low to the highest high after it. */
  datatype Leg = NoLeg | Leg(lowIdx: nat, highIdx: nat, low: real, high: real)

  /** The detector's memory between two candles. */
  datatype Detector = Detector(cur: Leg, lastPivot: Option<nat>)

  predicate IsPivotLow(low: seq<real>, j: int, pivot: nat) {
    && 0 <= j - pivot && j + pivot < |low|
    && forall k :: j - pivot <= k <= j + pivot ==> (k < j ==> low[k] > low[j]) && (k > j ==> low[k] >= low[j])
  }

  method CheckPivotLow(low: seq<real>, j: int, pivot: nat) returns (r: bool)
    ensures r == IsPivotLow(low, j, pivot)
  {
    if j - pivot < 0 || j + pivot >= |low| { return false; }
    for k := j - pivot to j + pivot + 1
      invariant forall i :: j - pivot <= i < k ==> (i < j ==> low[i] > low[j]) && (i > j ==> low[i] >= low[j])
    {
      if (k < j && low[k] <= low[j]) || (k > j && low[k] < low[j]) { return false; }
    }
    r := true;
  }

  /** The first index of the highest of high[j..t]. */
  function FirstMax(high: seq<real>, j: nat, t: nat): (m: nat)
    requires j <= t < |high|
    ensures j <= m <= t
    ensures forall k :: j <= k < m ==> high[k] < high[m]
    ensures forall k :: m <= k <= t ==> high[k] <= high[m]
  {
    if t == j then j
    else
      var m := FirstMax(high, j, t - 1);
      if high[t] > high[m] then t else m
  }

  /** A swing low that the candle's low undercuts no longer counts. */
  function Unbroken(d: Detector, low: seq<real>, t: nat): Detector
    requires t < |low| && (d.lastPivot.Some? ==> d.lastPivot.value < |low|)
  {
    Detector(if d.cur.Leg? && low[t] < d.cur.low then NoLeg else d.cur,
             if d.lastPivot.Some? && low[t] < low[d.lastPivot.value] then None else d.lastPivot)
  }

  /** A new high extends the leg, from the last pivot if that came after the old high. */
  function Extended(d: Detector, high: seq<real>, low: seq<real>, t: nat): Detector
    requires t < |high| == |low| && (d.lastPivot.Some? ==> d.lastPivot.value < |low|)
  {
    if d.cur.NoLeg? || high[t] <= d.cur.high then d
    else if d.lastPivot.Some? && d.lastPivot.value > d.cur.highIdx
    then d.(cur := Leg(d.lastPivot.value, t, low[d.lastPivot.value], high[t]))
    else d.(cur := d.cur.(highIdx := t, high := high[t]))
  }

  /** A pivot confirmed by candle t becomes the last pivot, and starts a leg if there is none. */
  function Confirmed(d: Detector, high: seq<real>, low: seq<real>, pivot: nat, t: nat): Detector
    requires t < |high| == |low|
  {
    var j := t - pivot;
    if !IsPivotLow(low, j, pivot) || (d.lastPivot.Some? && d.lastPivot.value >= j) then d
    else
      var m := FirstMax(high, j, t);
      Detector(if d.cur.Leg? then d.cur else Leg(j, m, low[j], high[m]), Some(j))
  }

  function StepDetector(d: Detector, high: seq<real>, low: seq<real>, pivot: nat, t: nat): Detector
    requires t < |high| == |low| && (d.lastPivot.Some? ==> d.lastPivot.value < |low|)
  {
    Confirmed(Extended(Unbroken(d, low, t), high, low, t), high, low, pivot, t)
  }

  /** The detector after the first t candles. */
  function After(high: seq<real>, low: seq<real>, pivot: nat, t: nat): (d: Detector)
    requires t <= |high| == |low|
    ensures d.lastPivot.Some? ==> d.lastPivot.value < t
  {
    if t == 0 then Detector(NoLeg, None)
    else StepDetector(After(high, low, pivot, t - 1), high, low, pivot, t - 1)
  }

  /** The method's variables as a detector; -1 stands for no pivot. */
  function Packed(cur: Leg, lastPivot: int): Detector {
    Detector(cur, if lastPivot < 0 then None else Some(lastPivot))
  }

  method FibLegs(high: seq<real>, low: seq<real>, pivot: nat) returns (legs: seq<Leg>)
    requires |high| == |low|
    ensures |legs| == |high|
    ensures forall t :: 0 <= t < |legs| ==> legs[t] == After(high, low, pivot, t).cur
  {
    legs := [];
    var cur := NoLeg;
    var lastPivot := -1;
    hide IsPivotLow, FirstMax, After, Confirmed, Extended, Unbroken;
    AfterNone(high, low, pivot);
    for t := 0 to |high|
      invariant |legs| == t && -1 <= lastPivot < t
      invariant Packed(cur, lastPivot) == After(high, low, pivot, t)
      invariant forall i :: 0 <= i < t ==> legs[i] == After(high, low, pivot, i).cur
    {
      AfterNext(high, low, pivot, t);
      legs := legs + [cur];
      cur, lastPivot := BreakOrExtend(cur, lastPivot, high, low, t);
      cur, lastPivot := ConfirmPivot(cur, lastPivot, high, low, pivot, t);
    }
  }

  lemma AfterNone(high: seq<real>, low: seq<real>, pivot: nat)
    requires |high| == |low|
    ensures After(high, low, pivot, 0) == Detector(NoLeg, None)
  {
  }

  lemma AfterNext(high: seq<real>, low: seq<real>, pivot: nat, t: nat)
    requires t < |high| == |low|
    ensures var d := After(high, low, pivot, t);
      && (d.lastPivot.Some? ==> d.lastPivot.value < t)
      && After(high, low, pivot, t + 1)
         == Confirmed(Extended(Unbroken(d, low, t), high, low, t), high, low, pivot, t)
  {
    hide Confirmed, Extended, Unbroken;
  }

  method BreakOrExtend(cur: Leg, lastPivot: int, high: seq<real>, low: seq<real>, t: nat)
    returns (cur': Leg, lastPivot': int)
    requires t < |high| == |low| && -1 <= lastPivot < t
    ensures Packed(cur', lastPivot') == Extended(Unbroken(Packed(cur, lastPivot), low, t), high, low, t)
    ensures -1 <= lastPivot' < t
  {
    cur', lastPivot' := cur, lastPivot;
    if cur'.Leg? && low[t] < cur'.low { cur' := NoLeg; }
    if lastPivot' >= 0 && low[t] < low[lastPivot'] { lastPivot' := -1; }

    if cur'.Leg? && high[t] > cur'.high {
      if lastPivot' > cur'.highIdx { cur' := cur'.(lowIdx := lastPivot', low := low[lastPivot']); }
      cur' := cur'.(highIdx := t, high := high[t]);
    }
  }

  method ConfirmPivot(cur: Leg, lastPivot: int, high: seq<real>, low: seq<real>, pivot: nat, t: nat)
    returns (cur': Leg, lastPivot': int)
    requires t < |high| == |low| && -1 <= lastPivot < t
    ensures Packed(cur', lastPivot') == Confirmed(Packed(cur, lastPivot), high, low, pivot, t)
    ensures -1 <= lastPivot' <= t
  {
    cur', lastPivot' := cur, lastPivot;
    var j := t - pivot;
    var isPivot := CheckPivotLow(low, j, pivot);
    if !isPivot || lastPivot >= j { return; }
    lastPivot' := j;
    if cur.NoLeg? {
      var m := HighestFrom(high, j, t);
      cur' := Leg(j, m, low[j], high[m]);
    }
  }

  method HighestFrom(high: seq<real>, j: nat, t: nat) returns (highIdx: nat)
    requires j <= t < |high|
    ensures highIdx == FirstMax(high, j, t)
  {
    highIdx := j;
    for k := j + 1 to t + 1
      invariant highIdx == FirstMax(high, j, k - 1)
    {
      if high[k] > high[highIdx] { highIdx := k; }
    }
  }

  // ----- what a leg is -----

  /** The leg starts at a pivot low confirmed before candle c that no low up to n undercuts. */
  predicate SoundLow(leg: Leg, low: seq<real>, pivot: nat, c: nat, n: nat)
    requires n <= |low|
  {
    leg.Leg? ==>
      && leg.lowIdx + pivot < c && leg.lowIdx < |low| && IsPivotLow(low, leg.lowIdx, pivot)
      && leg.low == low[leg.lowIdx] && (forall k :: leg.lowIdx <= k < n ==> leg.low <= low[k])
  }

  /** The leg's high is the first highest from its start up to n. */
  predicate SoundHigh(leg: Leg, high: seq<real>, n: nat)
    requires n <= |high|
  {
    leg.Leg? ==>
      && leg.lowIdx <= leg.highIdx < n && leg.high == high[leg.highIdx]
      && (forall k :: leg.lowIdx <= k < leg.highIdx ==> high[k] < leg.high)
      && (forall k :: leg.highIdx <= k < n ==> high[k] <= leg.high)
  }

  /** The last pivot is confirmed and not undercut since. */
  predicate SoundPivot(p: Option<nat>, low: seq<real>, pivot: nat, c: nat, n: nat)
    requires n <= |low|
  {
    p.Some? ==>
      && p.value + pivot < c && p.value < |low| && IsPivotLow(low, p.value, pivot)
      && (forall k :: p.value <= k < n ==> low[p.value] <= low[k])
  }

  lemma UnbrokenIsSound(d: Detector, high: seq<real>, low: seq<real>, pivot: nat, t: nat)
    requires t < |high| == |low| && SoundLow(d.cur, low, pivot, t, t) && SoundPivot(d.lastPivot, low, pivot, t, t)
    requires SoundHigh(d.cur, high, t) && (d.lastPivot.Some? ==> d.lastPivot.value < |low|)
    ensures var e := Unbroken(d, low, t);
      && (e.lastPivot.Some? ==> e.lastPivot.value < |low|)
      && SoundLow(e.cur, low, pivot, t, t + 1) && SoundPivot(e.lastPivot, low, pivot, t, t + 1)
      && SoundHigh(e.cur, high, t)
  {
  }

  lemma ExtendedIsSound(d: Detector, high: seq<real>, low: seq<real>, pivot: nat, t: nat)
    requires t < |high| == |low| && (d.lastPivot.Some? ==> d.lastPivot.value < |low|)
    requires SoundLow(d.cur, low, pivot, t, t + 1) && SoundPivot(d.lastPivot, low, pivot, t, t + 1)
    requires SoundHigh(d.cur, high, t)
    ensures var e := Extended(d, high, low, t);
      && SoundLow(e.cur, low, pivot, t, t + 1) && SoundPivot(e.lastPivot, low, pivot, t, t + 1)
      && SoundHigh(e.cur, high, t + 1)
  {
    hide IsPivotLow;
  }

  lemma ConfirmedIsSound(d: Detector, high: seq<real>, low: seq<real>, pivot: nat, t: nat)
    requires t < |high| == |low|
    requires SoundLow(d.cur, low, pivot, t, t + 1) && SoundPivot(d.lastPivot, low, pivot, t, t + 1)
    requires SoundHigh(d.cur, high, t + 1)
    ensures var e := Confirmed(d, high, low, pivot, t);
      && SoundLow(e.cur, low, pivot, t + 1, t + 1) && SoundPivot(e.lastPivot, low, pivot, t + 1, t + 1)
      && SoundHigh(e.cur, high, t + 1)
  {
    var j := t - pivot;
    if IsPivotLow(low, j, pivot) { PivotHolds(low, j, pivot); }
    hide IsPivotLow, FirstMax;
  }

  lemma PivotHolds(low: seq<real>, j: int, pivot: nat)
    requires IsPivotLow(low, j, pivot)
    ensures 0 <= j && j + pivot < |low| && forall k :: j <= k <= j + pivot ==> low[j] <= low[k]
  {
  }

  /** What the detector remembers before candle t is sound. */
  predicate SoundAt(d: Detector, high: seq<real>, low: seq<real>, pivot: nat, t: nat)
    requires t <= |high| == |low|
  {
    SoundLow(d.cur, low, pivot, t, t) && SoundHigh(d.cur, high, t) && SoundPivot(d.lastPivot, low, pivot, t, t)
  }

  lemma StepIsSound(d: Detector, high: seq<real>, low: seq<real>, pivot: nat, t: nat)
    requires t < |high| == |low| && SoundAt(d, high, low, pivot, t) && (d.lastPivot.Some? ==> d.lastPivot.value < t)
    ensures var e := Confirmed(Extended(Unbroken(d, low, t), high, low, t), high, low, pivot, t);
      SoundAt(e, high, low, pivot, t + 1)
  {
    hide SoundLow, SoundHigh, SoundPivot, Confirmed, Extended, Unbroken;
    UnbrokenIsSound(d, high, low, pivot, t);
    var u := Unbroken(d, low, t);
    ExtendedIsSound(u, high, low, pivot, t);
    ConfirmedIsSound(Extended(u, high, low, t), high, low, pivot, t);
  }

  lemma {:induction false} LegsAreSound(high: seq<real>, low: seq<real>, pivot: nat, t: nat)
    requires t <= |high| == |low|
    ensures SoundAt(After(high, low, pivot, t), high, low, pivot, t)
  {
    if t == 0 {
      AfterNone(high, low, pivot);
    } else {
      hide SoundAt, Confirmed, After, Unbroken, Extended;
      LegsAreSound(high, low, pivot, t - 1);
      AfterNext(high, low, pivot, t - 1);
      StepIsSound(After(high, low, pivot, t - 1), high, low, pivot, t - 1);
    }
  }

  /** Between two candles the anchor of a live leg never goes back; a leg that starts anew starts
      after every earlier anchor. */
  lemma AnchorStep(high: seq<real>, low: seq<real>, pivot: nat, t: nat, bound: nat)
    requires t < |high| == |low| && bound + pivot < t
    requires After(high, low, pivot, t).cur.Leg? ==> bound <= After(high, low, pivot, t).cur.lowIdx
    ensures var cur := After(high, low, pivot, t + 1).cur; cur.Leg? ==> bound <= cur.lowIdx
  {
    LegsAreSound(high, low, pivot, t);
  }

  lemma AnchorIsConfirmed(high: seq<real>, low: seq<real>, pivot: nat, t: nat)
    requires t <= |high| == |low|
    ensures var cur := After(high, low, pivot, t).cur; cur.Leg? ==> cur.lowIdx + pivot < t
  {
    hide After, IsPivotLow, SoundHigh, SoundPivot;
    LegsAreSound(high, low, pivot, t);
  }

  lemma {:induction false} AnchorsNeverGoBack(high: seq<real>, low: seq<real>, pivot: nat, s: nat, t: nat)
    requires s <= t <= |high| == |low|
    requires After(high, low, pivot, s).cur.Leg?
    ensures var a, b := After(high, low, pivot, s).cur, After(high, low, pivot, t).cur;
      b.Leg? ==> a.lowIdx <= b.lowIdx
  {
    if s < t {
      hide After;
      AnchorsNeverGoBack(high, low, pivot, s, t - 1);
      AnchorIsConfirmed(high, low, pivot, s);
      AnchorStep(high, low, pivot, t - 1, After(high, low, pivot, s).cur.lowIdx);
    }
  }

  /** A low below the swing low ends the leg, and no leg is known before the next candle: exactly
      because pivots need at least one candle on each side. */
  lemma BreakLeavesNoLegIff(high: seq<real>, low: seq<real>, pivot: nat, t: nat)
    requires t < |high| == |low|
    requires var cur := After(high, low, pivot, t).cur; cur.Leg? && low[t] < cur.low
    ensures After(high, low, pivot, t + 1).cur == NoLeg <==> pivot >= 1
  {
    LegsAreSound(high, low, pivot, t);
    var j := t - pivot;
    if pivot >= 1 && IsPivotLow(low, j, pivot) {
      PivotHolds(low, j, pivot);
      assert false;
    }
  }

  /** No lookahead: what is known before candle t depends on candles before t only. */
  lemma {:induction false} NoLookahead(
    high: seq<real>, low: seq<real>, high': seq<real>, low': seq<real>, pivot: nat, t: nat)
    requires t <= |high| == |low| && t <= |high'| == |low'|
    requires high[..t] == high'[..t] && low[..t] == low'[..t]
    ensures After(high, low, pivot, t) == After(high', low', pivot, t)
  {
    if t > 0 {
      assert high[..t - 1] == high[..t][..t - 1] && low[..t - 1] == low[..t][..t - 1];
      assert high'[..t - 1] == high'[..t][..t - 1] && low'[..t - 1] == low'[..t][..t - 1];
      NoLookahead(high, low, high', low', pivot, t - 1);
      assert forall k :: 0 <= k < t ==> low[k] == low[..t][k] == low'[..t][k] == low'[k];
      assert forall k :: 0 <= k < t ==> high[k] == high[..t][k] == high'[..t][k] == high'[k];
      StepsAgree(After(high, low, pivot, t - 1), high, low, high', low', pivot, t - 1);
    }
  }

  lemma StepsAgree(d: Detector, high: seq<real>, low: seq<real>, high': seq<real>, low': seq<real>, pivot: nat, t: nat)
    requires t < |high| == |low| && t < |high'| == |low'| && (d.lastPivot.Some? ==> d.lastPivot.value < t)
    requires forall k :: 0 <= k <= t ==> low[k] == low'[k] && high[k] == high'[k]
    ensures StepDetector(d, high, low, pivot, t) == StepDetector(d, high', low', pivot, t)
  {
    PivotAgrees(low, low', pivot, t);
    FirstMaxAgrees(high, high', t - pivot, t);
    hide IsPivotLow, FirstMax;
  }

  lemma PivotAgrees(low: seq<real>, low': seq<real>, pivot: nat, t: nat)
    requires t < |low| && t < |low'| && forall k :: 0 <= k <= t ==> low[k] == low'[k]
    ensures IsPivotLow(low, t - pivot, pivot) <==> IsPivotLow(low', t - pivot, pivot)
  {
  }

  lemma {:induction false} FirstMaxAgrees(high: seq<real>, high': seq<real>, j: int, t: nat)
    requires t < |high| && t < |high'|
    requires forall k :: 0 <= k <= t ==> high[k] == high'[k]
    ensures 0 <= j <= t ==> FirstMax(high, j, t) == FirstMax(high', j, t)
  {
    if 0 <= j < t { FirstMaxAgrees(high, high', j, t - 1); }
  }

  // ----- trading -----

  const MIN_LEG_ATR := 3.0
  const MAX_PULLBACK := 20
  const STOP_LEVEL := 0.786
  const MIN_ORDER := 10.0

  /** A dataframe with its two indicators. */
  datatype Frame = Frame(pair: Pair, time: seq<int>, open: seq<real>, high: seq<real>, low: seq<real>,
                         close: seq<real>, ema: seq<real>, atr: seq<real>)

  predicate Regular(f: Frame) {
    && |f.time| == |f.open| == |f.high| == |f.low| == |f.close| == |f.ema| == |f.atr|
    && StrictlyIncreasing(f.time)
  }

  /** What the broker answers on this candle; None is an error. */
  datatype Broker = Broker(position: Option<(real, real)>, bought: Option<real>)

  /** What the strategy does on a candle: a buy is followed by an OCO sell of what was bought. */
  datatype Action = Hold | Refused | Bought(leg: Leg, quote: real, size: real, take: real, stop: real)

  function FibLevel(swingLow: real, swingHigh: real, ratio: real): real {
    swingHigh - (swingHigh - swingLow) * ratio
  }

  predicate Tradable(leg: Leg, atr: real) {
    leg.Leg? && atr > 0.0 && leg.high - leg.low >= MIN_LEG_ATR * atr
  }

  /** The leg offered for a trade on the last candle, before the memory of traded legs is asked. */
  function Candidate(f: Frame, pivot: nat): Leg
    requires Regular(f)
  {
    var i := |f.close| - 1;
    if i < 1 then NoLeg
    else
      var leg := After(f.high, f.low, pivot, i).cur;
      if !Tradable(leg, f.atr[i - 1]) || i - leg.highIdx > MAX_PULLBACK || f.close[i] <= f.ema[i] then NoLeg
      else leg
  }

  /** The pullback touched the entry level without breaking the stop level, and the candle closed green
      above the entry and below the swing high. */
  predicate Signals(f: Frame, leg: Leg, entryLevel: real)
    requires Regular(f) && leg.Leg? && |f.close| >= 2
  {
    var i := |f.close| - 1;
    var entry, stop := FibLevel(leg.low, leg.high, entryLevel), FibLevel(leg.low, leg.high, STOP_LEVEL);
    var touch := MinReal(f.low[i - 1], f.low[i]);
    touch <= entry && touch > stop && f.close[i] > f.open[i] && f.close[i] > entry && f.close[i] < leg.high
  }

  predicate Affords(f: Frame, b: Broker)
    requires Regular(f) && |f.close| >= 1
  {
    b.position.Some? && b.position.value.0 * f.close[|f.close| - 1] < MIN_ORDER && b.position.value.1 >= MIN_ORDER
  }

  function TradedAt(traded: map<Pair, int>, pair: Pair): int {
    if pair in traded then traded[pair] else ZERO_TIME
  }

  function Act(f: Frame, traded: map<Pair, int>, b: Broker, pivot: nat, entryLevel: real): Action
    requires Regular(f)
  {
    var leg := Candidate(f, pivot);
    if leg.NoLeg? || leg.lowIdx >= |f.time| || TradedAt(traded, f.pair) == f.time[leg.lowIdx]
       || !Signals(f, leg, entryLevel) || !Affords(f, b) then Hold
    else if b.bought.None? then Refused
    else Bought(leg, b.position.value.1, b.bought.value, leg.high, FibLevel(leg.low, leg.high, STOP_LEVEL))
  }

  /** The memory holds, per pair, the swing low time of the last leg bought. */
  function Remember(f: Frame, traded: map<Pair, int>, a: Action): map<Pair, int> {
    if a.Bought? && a.leg.Leg? && a.leg.lowIdx < |f.time| then traded[f.pair := f.time[a.leg.lowIdx]] else traded
  }

  class FibonacciStrategy {
    const pivot: nat
    const entryLevel: real
    var traded: map<Pair, int>

    constructor (pivot: int, entryLevel: real)
      ensures this.pivot >= 1 && (pivot > 0 ==> this.pivot == pivot) && (pivot <= 0 ==> this.pivot == 5)
      ensures this.entryLevel == if entryLevel <= 0.0 then 0.618 else entryLevel
      ensures traded == map[]
    {
      this.pivot := if pivot <= 0 then 5 else pivot;
      this.entryLevel := if entryLevel <= 0.0 then 0.618 else entryLevel;
      traded := map[];
    }

    method OnCandle(df: Frame, broker: Broker) returns (action: Action)
      requires Regular(df)
      modifies this
      ensures action == Act(df, old(traded), broker, pivot, entryLevel)
      ensures traded == Remember(df, old(traded), action)
    {
      hide FibLevel, StrictlyIncreasing, After;
      var leg := FindCandidate(df);
      if leg.NoLeg? { return Hold; }
      var i := |df.close| - 1;
      var closePrice := df.close[i];
      var legStart := df.time[leg.lowIdx];
      if TradedAt(traded, df.pair) == legStart { return Hold; }

      var entry := FibLevel(leg.low, leg.high, entryLevel);
      var stop := FibLevel(leg.low, leg.high, STOP_LEVEL);
      var touch := MinReal(df.low[i - 1], df.low[i]);
      if touch > entry || touch <= stop { return Hold; }
      if closePrice <= df.open[i] || closePrice <= entry || closePrice >= leg.high { return Hold; }

      if broker.position.None? { return Hold; }
      var (assetPosition, quotePosition) := broker.position.value;
      if assetPosition * closePrice >= MIN_ORDER || quotePosition < MIN_ORDER { return Hold; }
      if broker.bought.None? { return Refused; }
      traded := traded[df.pair := legStart];
      action := Bought(leg, quotePosition, broker.bought.value, leg.high, stop);
    }

    /** The leg known before the last candle, if it is large and fresh enough and the trend is up. */
    method FindCandidate(df: Frame) returns (leg: Leg)
      requires Regular(df)
      ensures leg == Candidate(df, pivot)
      ensures leg.Leg? ==> |df.close| >= 2 && leg.lowIdx < |df.time|
    {
      var i := |df.close| - 1;
      if i < 1 { return NoLeg; }
      var legs := FibLegs(df.high, df.low, pivot);
      leg := legs[i];
      AnchorIsConfirmed(df.high, df.low, pivot, i);
      hide After, IsPivotLow;
      if !Tradable(leg, df.atr[i - 1]) || i - leg.highIdx > MAX_PULLBACK || df.close[i] <= df.ema[i] { return NoLeg; }
    }
  }

  /** Every OCO bracket straddles the trade: swing low, stop, entry level, close and take profit come
      in this order, whatever the entry level. */
  lemma BracketStraddlesEntry(f: Frame, traded: map<Pair, int>, b: Broker, pivot: nat, entryLevel: real)
    requires Regular(f) && Act(f, traded, b, pivot, entryLevel).Bought?
    ensures var a, close := Act(f, traded, b, pivot, entryLevel), f.close[|f.close| - 1];
      a.leg.low < a.stop < FibLevel(a.leg.low, a.leg.high, entryLevel) < close < a.take == a.leg.high
  {
    var i := |f.close| - 1;
    var leg := Candidate(f, pivot);
    hide After;
    assert leg.high - leg.low > 0.0;
    assert (leg.high - leg.low) * STOP_LEVEL < leg.high - leg.low;
  }

  // ----- one trade per leg -----

  /** A candle delivered to the strategy, with the broker's answers. */
  datatype Event = Event(frame: Frame, broker: Broker)

  predicate Prefix(a: Frame, b: Frame) {
    |a.time| <= |b.time| && a.time <= b.time && a.high <= b.high && a.low <= b.low
  }

  /** Dataframes of one pair only grow. */
  ghost predicate Growing(events: seq<Event>) {
    && (forall n :: 0 <= n < |events| ==> Regular(events[n].frame))
    && (forall m, n :: 0 <= m < n < |events| && events[m].frame.pair == events[n].frame.pair ==>
          Prefix(events[m].frame, events[n].frame))
  }

  /** The memory before event n of a run. */
  function Memory(events: seq<Event>, pivot: nat, level: real, n: nat): map<Pair, int>
    requires n <= |events| && forall k :: 0 <= k < |events| ==> Regular(events[k].frame)
    decreases n, 0
  {
    if n == 0 then map[]
    else Remember(events[n - 1].frame, Memory(events, pivot, level, n - 1), ActionAt(events, pivot, level, n - 1))
  }

  function ActionAt(events: seq<Event>, pivot: nat, level: real, n: nat): Action
    requires n < |events| && forall k :: 0 <= k < |events| ==> Regular(events[k].frame)
    decreases n, 1
  {
    Act(events[n].frame, Memory(events, pivot, level, n), events[n].broker, pivot, level)
  }

  /** A bought leg is the one the detector knows before the last candle. */
  lemma BoughtLeg(events: seq<Event>, pivot: nat, level: real, n: nat)
    requires Growing(events) && n < |events| && ActionAt(events, pivot, level, n).Bought?
    ensures var f, leg := events[n].frame, ActionAt(events, pivot, level, n).leg;
      && |f.time| >= 2 && leg.Leg? && leg.lowIdx < |f.time|
      && leg == After(f.high, f.low, pivot, |f.time| - 1).cur
      && TradedAt(Memory(events, pivot, level, n), f.pair) != f.time[leg.lowIdx]
  {
    LegsAreSound(events[n].frame.high, events[n].frame.low, pivot, |events[n].frame.time| - 1);
    hide After, Memory;
  }

  /** A leg bought later does not start before one bought earlier. */
  lemma LaterLegStartsLater(events: seq<Event>, pivot: nat, level: real, m: nat, n: nat)
    requires Growing(events) && m < n < |events| && events[m].frame.pair == events[n].frame.pair
    requires ActionAt(events, pivot, level, m).Bought? && ActionAt(events, pivot, level, n).Bought?
    ensures ActionAt(events, pivot, level, m).leg.lowIdx <= ActionAt(events, pivot, level, n).leg.lowIdx
  {
    BoughtLeg(events, pivot, level, m);
    BoughtLeg(events, pivot, level, n);
    var f, g := events[m].frame, events[n].frame;
    assert Prefix(f, g);
    var s, t := |f.time| - 1, |g.time| - 1;
    hide After, Memory, Act;
    assert f.high[..s] == g.high[..s] && f.low[..s] == g.low[..s];
    NoLookahead(f.high, f.low, g.high, g.low, pivot, s);
    AnchorsNeverGoBack(g.high, g.low, pivot, s, t);
  }

  /** The memory of a pair is the start of the last leg bought, if any was. */
  lemma {:induction false} MemoryIsLastBuy(events: seq<Event>, pivot: nat, level: real, m: nat, n: nat)
    returns (l: nat)
    requires Growing(events) && m < n <= |events| && ActionAt(events, pivot, level, m).Bought?
    ensures m <= l < n && events[l].frame.pair == events[m].frame.pair && ActionAt(events, pivot, level, l).Bought?
    ensures var f, leg := events[l].frame, ActionAt(events, pivot, level, l).leg;
      leg.lowIdx < |f.time| && TradedAt(Memory(events, pivot, level, n), f.pair) == f.time[leg.lowIdx]
  {
    hide Act;
    var bought := ActionAt(events, pivot, level, n - 1).Bought?;
    if n - 1 == m || (events[n - 1].frame.pair == events[m].frame.pair && bought) {
      l := n - 1;
      BoughtLeg(events, pivot, level, l);
    } else {
      l := MemoryIsLastBuy(events, pivot, level, m, n - 1);
    }
  }

  /** Although only the last traded swing low is remembered, no leg of a pair is ever bought twice:
      each buy is of a leg that starts later than every leg bought before. */
  lemma {:induction false} OneTradePerLeg(events: seq<Event>, pivot: nat, level: real, m: nat, n: nat)
    requires Growing(events) && m < n < |events| && events[m].frame.pair == events[n].frame.pair
    requires ActionAt(events, pivot, level, m).Bought? && ActionAt(events, pivot, level, n).Bought?
    ensures ActionAt(events, pivot, level, m).leg.lowIdx < ActionAt(events, pivot, level, n).leg.lowIdx
    decreases n - m
  {
    var l := MemoryIsLastBuy(events, pivot, level, m, n);
    BoughtLeg(events, pivot, level, n);
    BoughtLeg(events, pivot, level, l);
    LaterLegStartsLater(events, pivot, level, l, n);
    hide Act, Memory, After;
    assert Prefix(events[l].frame, events[n].frame);
    if m < l { OneTradePerLeg(events, pivot, level, m, l); }
  }
}
