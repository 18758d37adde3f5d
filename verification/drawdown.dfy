/** The largest drop of an equity curve, found in one pass. */
module Drawdown {
  import opened Types
  import opened Equity

  /** The largest finite double, the starting value of the running minimum. */
  const MAX_FLOAT: real := (0x1F_FFFF_FFFF_FFFF * Pow2(971)) as real

  function Pow2(n: nat): (p: int)
    ensures p > 0
  {
    if n == 0 then 1 else 2 * Pow2(n - 1)
  }

  lemma MaxFloatIsPositive()
    ensures MAX_FLOAT > 0.0
  {
    hide Pow2;
    var p := Pow2(971);
    assert 0x1F_FFFF_FFFF_FFFF * p > 0;
  }

  function Ratio(drop: real, base: real): real
    requires base != 0.0
  {
    drop / base
  }

  /** What the curve gains from i to j. */
  function Change(v: seq<AssetValue>, i: nat, j: nat): real
    requires i < |v| && j < |v|
  {
    v[j].value - v[i].value
  }

  /** No value of the first n comes less than d above one before it. */
  ghost predicate NoDeeper(v: seq<AssetValue>, n: nat, d: real) {
    n <= |v| && forall a, b :: 0 <= a < b < n ==> d <= Change(v, a, b)
  }

  /** From i to a later j the curve drops as deep as anywhere. */
  ghost predicate Deepest(v: seq<AssetValue>, i: nat, j: nat) {
    i < j < |v| && NoDeeper(v, |v|, Change(v, i, j))
  }

  /** i is the first peak of the curve before j. */
  ghost predicate Peak(v: seq<AssetValue>, i: nat, j: nat) {
    && i < j <= |v|
    && (forall a :: 0 <= a < i ==> v[a].value < v[i].value)
    && (forall a :: i <= a < j ==> v[a].value <= v[i].value)
  }

  /** The window from i to j, its drop and the value it drops from. */
  datatype Window = Window(drop: real, base: real, start: int, end: int)

  function WindowOf(v: seq<AssetValue>, i: nat, j: nat): Window
    requires i < |v| && j < |v|
  {
    Window(Change(v, i, j), v[i].value, v[i].time, v[j].time)
  }

  /** The peak before k is the peak before k - 1, or k - 1 itself when the curve has risen above that. */
  lemma PeakMoves(v: seq<AssetValue>, p: nat, k: nat)
    requires 1 < k <= |v| && Peak(v, p, k - 1)
    ensures Change(v, p, k - 1) > 0.0 ==> Peak(v, k - 1, k)
    ensures Change(v, p, k - 1) <= 0.0 ==> Peak(v, p, k)
  {
  }

  /** The deepest drop that ends at k starts at the peak. */
  lemma DeepestFromPeak(v: seq<AssetValue>, p: nat, k: nat, d: real)
    requires k < |v| && Peak(v, p, k) && NoDeeper(v, k, d)
    ensures NoDeeper(v, k + 1, MinReal(d, Change(v, p, k)))
  {
    forall a, b | 0 <= a < b < k + 1 ensures MinReal(d, Change(v, p, k)) <= Change(v, a, b) {
      if b < k { assert d <= Change(v, a, b); }
    }
  }

  /** The curve only has to be searched for drops, and the search starts at its first value. */
  lemma SearchStarts(v: seq<AssetValue>)
    requires v != []
    ensures NoDeeper(v, 1, 0.0) && Peak(v, 0, 1)
  {
  }

  ghost predicate NeverFalls(v: seq<AssetValue>) {
    forall a, b :: 0 <= a < b < |v| ==> v[a].value <= v[b].value
  }

  /** What the search has found once it has seen the whole curve. */
  lemma SearchEnds(v: seq<AssetValue>, i: nat, j: nat, drop: real)
    requires drop <= 0.0 && NoDeeper(v, |v|, drop)
    requires drop < 0.0 ==> Peak(v, i, j) && j < |v| && drop == Change(v, i, j)
    ensures drop == 0.0 <==> NeverFalls(v)
    ensures drop < 0.0 ==> Deepest(v, i, j) && v[j].value < v[i].value
  {
    if drop == 0.0 {
      forall a, b | 0 <= a < b < |v| ensures v[a].value <= v[b].value {
        assert drop <= Change(v, a, b);
      }
    } else {
      assert v[j].value < v[i].value;
    }
  }

  lemma DropIsNegative(drop: real, base: real)
    requires drop < 0.0 < base
    ensures Ratio(drop, base) < 0.0
  {
  }

  /** The result reports the deepest drop as a ratio of the peak it starts from, with its window. It is
      zero when the curve never drops, or when that peak is not positive. */
  method MaxDrawdown(v: seq<AssetValue>) returns (ratio: real, start: int, end: int, ghost i: nat, ghost j: nat)
    ensures NeverFalls(v) ==> ratio == 0.0
    ensures !NeverFalls(v) ==>
      Deepest(v, i, j) && Peak(v, i, j) && v[j].value < v[i].value
      && ratio == Reported(v, i, j)
      && (v[i].value > 0.0 ==> ratio < 0.0 && start == v[i].time && end == v[j].time)
    ensures ratio == 0.0 ==> start == end == ZERO_TIME
  {
    hide NoDeeper, Peak, MAX_FLOAT, Ratio, Deepest, NeverFalls;
    i, j := 0, 0;
    if |v| < 2 {
      ShortCurve(v);
      return 0.0, ZERO_TIME, ZERO_TIME, 0, 0;
    }

    MaxFloatIsPositive();
    SearchStarts(v);
    var local := Window(MAX_FLOAT, 0.0, ZERO_TIME, ZERO_TIME);
    var global := Window(0.0, 0.0, ZERO_TIME, ZERO_TIME);
    ghost var p: nat := 0;

    for k := 1 to |v|
      invariant p < k && Peak(v, p, if k == 1 then k else k - 1)
      invariant if k == 1 then local.drop > 0.0 && p == 0 else local == WindowOf(v, p, k - 1)
      invariant global.drop <= 0.0 && NoDeeper(v, k, global.drop)
      invariant global.drop < 0.0 ==> i < j < k && Peak(v, i, j) && global == WindowOf(v, i, j)
    {
      if k > 1 { PeakMoves(v, p, k); }
      var diff := v[k].value - v[k - 1].value;
      if local.drop > 0.0 {
        local := Window(diff, v[k - 1].value, v[k - 1].time, v[k].time);
        p := k - 1;
      } else {
        local := local.(drop := local.drop + diff, end := v[k].time);
      }
      assert Peak(v, p, k) && local == WindowOf(v, p, k);
      DeepestFromPeak(v, p, k, global.drop);
      if local.drop < global.drop {
        global := local;
        i, j := p, k;
      }
    }
    SearchEnds(v, i, j, global.drop);

    if global.drop == 0.0 || global.base <= 0.0 {
      return 0.0, ZERO_TIME, ZERO_TIME, i, j;
    }
    DropIsNegative(global.drop, global.base);
    return Ratio(global.drop, global.base), global.start, global.end, i, j;
  }

  lemma ShortCurve(v: seq<AssetValue>)
    requires |v| < 2
    ensures NeverFalls(v)
  {
  }

  // ----- the deepest drop and the largest loss -----

  /** From a positive value at a, what the curve has lost at b, as a part of that value. */
  function Loss(v: seq<AssetValue>, a: nat, b: nat): real
    requires a < |v| && b < |v| && v[a].value > 0.0
  {
    Ratio(Change(v, a, b), v[a].value)
  }

  /** No drop from a positive value loses a larger part of it than r, and r is lost somewhere unless it is zero. */
  ghost predicate LargestLoss(v: seq<AssetValue>, r: real) {
    && r <= 0.0
    && (forall a, b :: 0 <= a < b < |v| && v[a].value > 0.0 ==> r <= Loss(v, a, b))
    && (r < 0.0 ==> exists a, b :: 0 <= a < b < |v| && v[a].value > 0.0 && Loss(v, a, b) == r)
  }

  /** What the code returns for the deepest drop, from i to j. */
  function Reported(v: seq<AssetValue>, i: nat, j: nat): real
    requires i < |v| && j < |v|
  {
    if v[i].value > 0.0 then Loss(v, i, j) else 0.0
  }

  lemma RatioOrder(d: real, e: real, x: real, y: real)
    requires 0.0 < x <= y && d <= e && d < 0.0
    ensures Ratio(d, x) <= Ratio(e, y)
  {
    var p, q := Ratio(d, x), Ratio(e, y);
    assert p * x == d && q * y == e;
    NegativeQuotient(p, x);
    assert p * (x - y) >= 0.0;
    assert (q - p) * y == (e - d) + p * (x - y);
    NonNegativeQuotient(q - p, y);
  }

  lemma NegativeQuotient(p: real, x: real)
    requires x > 0.0 && p * x < 0.0
    ensures p < 0.0
  {
  }

  lemma NonNegativeQuotient(p: real, x: real)
    requires x > 0.0 && p * x >= 0.0
    ensures p >= 0.0
  {
  }

  /** No drop from as high up as the deepest one, or higher, loses a larger part. */
  lemma NoLargerLossFromHigherUp(v: seq<AssetValue>, i: nat, j: nat, a: nat, b: nat)
    requires Deepest(v, i, j) && v[j].value < v[i].value && 0.0 < v[i].value
    requires a < b < |v| && v[i].value <= v[a].value
    ensures Loss(v, i, j) <= Loss(v, a, b)
  {
    assert Change(v, i, j) <= Change(v, a, b);
    RatioOrder(Change(v, i, j), Change(v, a, b), v[i].value, v[a].value);
  }

  /** The reported ratio is the largest loss of the curve exactly when no drop from a positive value below
      the peak it starts from loses a larger part; a peak that is not positive reports no loss, which is
      right exactly when nothing is lost from a positive value. */
  lemma ReportIsLargestLossIff(v: seq<AssetValue>, i: nat, j: nat)
    requires Deepest(v, i, j) && v[j].value < v[i].value
    ensures LargestLoss(v, Reported(v, i, j)) <==>
      forall a, b :: 0 <= a < b < |v| && 0.0 < v[a].value && (v[i].value > 0.0 ==> v[a].value < v[i].value) ==>
        Reported(v, i, j) <= Loss(v, a, b)
  {
    hide Ratio, NoDeeper;
    var r := Reported(v, i, j);
    if v[i].value > 0.0 {
      DropIsNegative(Change(v, i, j), v[i].value);
      if forall a, b :: 0 <= a < b < |v| && 0.0 < v[a].value < v[i].value ==> r <= Loss(v, a, b) {
        forall a, b | 0 <= a < b < |v| && v[a].value > 0.0 ensures r <= Loss(v, a, b) {
          if v[i].value <= v[a].value { NoLargerLossFromHigherUp(v, i, j, a, b); }
        }
        assert Loss(v, i, j) == r;
      }
    }
  }

  /** A condition on the values alone: every value from which the curve ever falls is either not positive or at
      least the peak of the deepest drop. */
  lemma HighestFallsFromThePeak(v: seq<AssetValue>, i: nat, j: nat)
    requires Deepest(v, i, j) && v[j].value < v[i].value
    requires forall a, b :: 0 <= a < b < |v| && v[b].value < v[a].value ==>
      v[a].value <= 0.0 || (0.0 < v[i].value <= v[a].value)
    ensures LargestLoss(v, Reported(v, i, j))
  {
    hide Ratio, NoDeeper;
    if v[i].value > 0.0 {
      DropIsNegative(Change(v, i, j), v[i].value);
    }
    forall a, b | 0 <= a < b < |v| && 0.0 < v[a].value && (v[i].value > 0.0 ==> v[a].value < v[i].value)
      ensures Reported(v, i, j) <= Loss(v, a, b)
    {
      RiseIsNoLoss(Change(v, a, b), v[a].value);
    }
    ReportIsLargestLossIff(v, i, j);
  }

  lemma RiseIsNoLoss(drop: real, base: real)
    requires base > 0.0 && drop >= 0.0
    ensures Ratio(drop, base) >= 0.0
  {
  }

  /** A curve that never falls loses nothing. */
  lemma NoFallNoLoss(v: seq<AssetValue>)
    requires NeverFalls(v)
    ensures LargestLoss(v, 0.0)
  {
    hide Ratio;
    forall a, b | 0 <= a < b < |v| && v[a].value > 0.0 ensures 0.0 <= Loss(v, a, b) {
      RiseIsNoLoss(Change(v, a, b), v[a].value);
    }
  }

  /** Two curves on which it is not the largest loss: 10 to 5 loses half, but 100 to 90 loses more value; and
      the deepest drop may start at a debt, from which no ratio is reported. */
  lemma DeepestDropNeedNotBeDeepestRatio()
    ensures var v := [AssetValue(1, 10.0), AssetValue(2, 5.0), AssetValue(3, 100.0), AssetValue(4, 90.0)];
      Deepest(v, 2, 3) && Loss(v, 0, 1) < Reported(v, 2, 3) && !LargestLoss(v, Reported(v, 2, 3))
    ensures var w := [AssetValue(1, -10.0), AssetValue(2, -50.0), AssetValue(3, 10.0), AssetValue(4, 5.0)];
      Deepest(w, 0, 1) && Loss(w, 2, 3) < Reported(w, 0, 1) && !LargestLoss(w, Reported(w, 0, 1))
  {
    var v := [AssetValue(1, 10.0), AssetValue(2, 5.0), AssetValue(3, 100.0), AssetValue(4, 90.0)];
    assert Change(v, 0, 1) == -5.0 && Change(v, 2, 3) == -10.0;
    var w := [AssetValue(1, -10.0), AssetValue(2, -50.0), AssetValue(3, 10.0), AssetValue(4, 5.0)];
    assert Change(w, 0, 1) == -40.0 && Change(w, 2, 3) == -5.0;
  }
}
