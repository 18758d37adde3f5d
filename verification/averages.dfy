/** When the average price of a position depends on the order in which its fills were processed. */
module Averages {
  import opened Types
  import opened Ledger
  import opened Positions
  import opened Sorting

  /** The fill is accounted at its recorded price. */
  predicate AtRecordedPrice(o: Order) { FillPrice(o) == o.price }

  /** What is lost to the average if the fill opens a position: it then counts at its recorded price. */
  function SlipOf(o: Order): real { Worth(o.quantity, FillPrice(o)) - Worth(o.quantity, o.price) }

  predicate SameAverage(m: map<Pair, Pos>, n: map<Pair, Pos>, pair: Pair) {
    pair in m && pair in n ==> m[pair].avgPrice == n[pair].avgPrice
  }

  // ----- two fills in a row -----

  /** Two fills of a pair may change places without changing the average:
      - without a position, if both are on one side and slip alike, or the larger is recorded at its price;
      - both extending the position, always;
      - both reducing it, if they do not flip it or flip it alike;
      - one extending and one reducing it, if nothing of it is left or the extension is at the average. */
  predicate Commute(m: map<Pair, Pos>, a: Order, b: Order) {
    if a.pair !in m then
      if a.side == b.side then SlipOf(a) == SlipOf(b)
      else a.quantity == b.quantity || AtRecordedPrice(if a.quantity > b.quantity then a else b)
    else
      var p := m[a.pair];
      if a.side == b.side then a.side == p.side || a.quantity + b.quantity <= p.quantity || FlipAlike(p.quantity, a, b)
      else if a.side == p.side then ExtendAlike(p, a, b)
      else ExtendAlike(p, b, a)
  }

  /** Two exits flip a position of size q alike: at one price, where a fill that opens the new position after the
      old one was closed counts at its recorded price. */
  predicate FlipAlike(q: real, a: Order, b: Order) {
    if a.quantity == q then ClosesAlike(q, a, b)
    else if b.quantity == q then ClosesAlike(q, b, a)
    else FillPrice(a) == FillPrice(b)
  }

  /** The same if the first of them closes the position exactly. */
  predicate ClosesAlike(q: real, closing: Order, b: Order) {
    if b.quantity == q then closing.price == b.price
    else if b.quantity < q then FillPrice(closing) == b.price
    else Worth(b.quantity - q, FillPrice(b) - b.price) + Worth(closing.quantity, FillPrice(closing) - b.price) == 0.0
  }

  predicate ExtendAlike(p: Pos, entry: Order, exit: Order) {
    || p.quantity + entry.quantity <= exit.quantity
    || if exit.quantity == p.quantity
       then Worth(p.quantity, p.avgPrice - entry.price) + Worth(entry.quantity, FillPrice(entry) - entry.price) == 0.0
       else FillPrice(entry) == p.avgPrice
  }

  function Mean(q1: real, p1: real, q2: real, p2: real): real
    requires q1 + q2 != 0.0
  {
    (Worth(q1, p1) + Worth(q2, p2)) / (q1 + q2)
  }

  lemma MeanIs(q1: real, p1: real, q2: real, p2: real, x: real)
    requires q1 + q2 > 0.0
    ensures Mean(q1, p1, q2, p2) == x <==> Worth(q1, p1 - x) + Worth(q2, p2 - x) == 0.0
  {
    var mean := Mean(q1, p1, q2, p2);
    assert mean * (q1 + q2) == q1 * p1 + q2 * p2;
    assert Worth(q1, p1 - x) + Worth(q2, p2 - x) == (mean - x) * (q1 + q2);
  }

  lemma WorthZero(q: real, d: real)
    requires q != 0.0
    ensures Worth(q, d) == 0.0 <==> d == 0.0
  {
  }

  /** A mean with a positive second weight is its first price only if both prices are one. */
  lemma MeanIsFirst(q1: real, p1: real, q2: real, p2: real)
    requires q1 > 0.0 && q2 > 0.0
    ensures Mean(q1, p1, q2, p2) == p1 <==> p1 == p2
    ensures Mean(q1, p1, q2, p2) == p2 <==> p1 == p2
    ensures Mean(q1, p1, q2, p2) == Mean(q2, p2, q1, p1)
  {
    MeanIs(q1, p1, q2, p2, p1);
    MeanIs(q1, p1, q2, p2, p2);
    WorthZero(q2, p2 - p1);
    WorthZero(q1, p1 - p2);
    assert Worth(q1, 0.0) == 0.0 && Worth(q2, 0.0) == 0.0;
  }

  /** Giving up a part of the first weight keeps the mean only if both prices are one. */
  lemma LighterMean(q1: real, p1: real, q2: real, p2: real, x: real)
    requires 0.0 < x < q1 && q2 > 0.0
    ensures Mean(q1, p1, q2, p2) == Mean(q1 - x, p1, q2, p2) <==> p1 == p2
  {
    var u := Mean(q1, p1, q2, p2);
    MeanIs(q1, p1, q2, p2, u);
    MeanIs(q1 - x, p1, q2, p2, u);
    assert Worth(q1 - x, p1 - u) == Worth(q1, p1 - u) - Worth(x, p1 - u);
    WorthZero(x, p1 - u);
    MeanIsFirst(q1, p1, q2, p2);
  }

  /** Moving q from one weight to the other keeps the mean only if both prices are one. */
  lemma ShiftedMean(q1: real, p1: real, q2: real, p2: real, q: real)
    requires 0.0 < q < q1 && q < q2
    ensures Mean(q1 - q, p1, q2, p2) == Mean(q2 - q, p2, q1, p1) <==> p1 == p2
  {
    var u := Mean(q1 - q, p1, q2, p2);
    MeanIs(q1 - q, p1, q2, p2, u);
    MeanIs(q2 - q, p2, q1, p1, u);
    assert Worth(q1 - q, p1 - u) == Worth(q1, p1 - u) - Worth(q, p1 - u);
    assert Worth(q2 - q, p2 - u) == Worth(q2, p2 - u) - Worth(q, p2 - u);
    assert Worth(q, p1 - u) - Worth(q, p2 - u) == Worth(q, p1 - p2);
    WorthZero(q, p1 - p2);
  }

  ghost predicate PairOfFills(m: map<Pair, Pos>, a: Order, b: Order) {
    && Sizes(m) && IsFill(a) && IsFill(b) && a.pair == b.pair
  }

  ghost predicate SwapKeepsAverage(m: map<Pair, Pos>, a: Order, b: Order) {
    SameAverage(Apply(Apply(m, a), b), Apply(Apply(m, b), a), a.pair)
  }

  lemma SwapOnFlat(m: map<Pair, Pos>, a: Order, b: Order)
    requires PairOfFills(m, a, b) && a.pair !in m
    ensures SwapKeepsAverage(m, a, b) <==> Commute(m, a, b)
  {
    if a.side == b.side {
      SameCost(a.quantity, a.price, b.quantity, FillPrice(b), b.quantity, b.price, a.quantity, FillPrice(a));
    }
    hide Worth;
  }

  /** Two means over the same weight are equal if their costs are. */
  lemma SameCost(q1: real, p1: real, q2: real, p2: real, r1: real, x1: real, r2: real, x2: real)
    requires q1 + q2 == r1 + r2 > 0.0
    ensures Mean(q1, p1, q2, p2) == Mean(r1, x1, r2, x2)
       <==> Worth(q1, p1) + Worth(q2, p2) == Worth(r1, x1) + Worth(r2, x2)
  {
    var u, v := Mean(q1, p1, q2, p2), Mean(r1, x1, r2, x2);
    assert u * (q1 + q2) == Worth(q1, p1) + Worth(q2, p2);
    assert v * (q1 + q2) == Worth(r1, x1) + Worth(r2, x2);
    assert (u - v) * (q1 + q2) == u * (q1 + q2) - v * (q1 + q2);
  }

  lemma SwapEntries(m: map<Pair, Pos>, a: Order, b: Order)
    requires PairOfFills(m, a, b) && a.pair in m && a.side == b.side == m[a.pair].side
    ensures SwapKeepsAverage(m, a, b)
  {
    var p := m[a.pair];
    MeanOfThree(p.quantity, p.avgPrice, a.quantity, FillPrice(a), b.quantity, FillPrice(b));
    MeanOfThree(p.quantity, p.avgPrice, b.quantity, FillPrice(b), a.quantity, FillPrice(a));
    hide Worth;
  }

  lemma MeanOfThree(q: real, p: real, q1: real, p1: real, q2: real, p2: real)
    requires q > 0.0 && q1 > 0.0 && q2 > 0.0
    ensures Mean(q + q1, Mean(q, p, q1, p1), q2, p2)
         == (Worth(q, p) + Worth(q1, p1) + Worth(q2, p2)) / (q + q1 + q2)
  {
    assert Worth(q + q1, Mean(q, p, q1, p1)) == Worth(q, p) + Worth(q1, p1);
  }

  /** The average after two exits that flip the position. */
  function FlippedAverage(q: real, a: Order, b: Order): real
    requires a.quantity > q ==> a.quantity - q + b.quantity != 0.0
  {
    if a.quantity < q then FillPrice(b)
    else if a.quantity == q then b.price
    else Mean(a.quantity - q, FillPrice(a), b.quantity, FillPrice(b))
  }

  lemma TwoExits(m: map<Pair, Pos>, a: Order, b: Order)
    requires PairOfFills(m, a, b) && a.pair in m && a.side == b.side != m[a.pair].side
    ensures var r, q := Apply(Apply(m, a), b), m[a.pair].quantity;
      if a.quantity + b.quantity <= q then a.pair in r ==> r[a.pair].avgPrice == m[a.pair].avgPrice
      else a.pair in r && r[a.pair].avgPrice == FlippedAverage(q, a, b)
  {
    hide Worth;
  }

  lemma FlippedAveragesAgree(q: real, a: Order, b: Order)
    requires q > 0.0 && a.quantity > 0.0 && b.quantity > 0.0 && a.quantity + b.quantity > q
    ensures FlippedAverage(q, a, b) == FlippedAverage(q, b, a) <==> FlipAlike(q, a, b)
  {
    hide Mean, Worth;
    var x, y := FillPrice(a), FillPrice(b);
    if a.quantity > q {
      MeanIsFirst(a.quantity - q, x, b.quantity, y);
      MeanIs(a.quantity - q, x, b.quantity, y, a.price);
    }
    if b.quantity > q {
      MeanIsFirst(b.quantity - q, y, a.quantity, x);
      MeanIs(b.quantity - q, y, a.quantity, x, b.price);
    }
    if a.quantity > q && b.quantity > q { ShiftedMean(a.quantity, x, b.quantity, y, q); }
  }

  lemma SwapExits(m: map<Pair, Pos>, a: Order, b: Order)
    requires PairOfFills(m, a, b) && a.pair in m && a.side == b.side != m[a.pair].side
    ensures SwapKeepsAverage(m, a, b) <==>
      a.quantity + b.quantity <= m[a.pair].quantity || FlipAlike(m[a.pair].quantity, a, b)
  {
    hide Apply, FlippedAverage, FlipAlike;
    TwoExits(m, a, b);
    TwoExits(m, b, a);
    if a.quantity + b.quantity > m[a.pair].quantity { FlippedAveragesAgree(m[a.pair].quantity, a, b); }
  }

  lemma SwapEntryAndExit(m: map<Pair, Pos>, entry: Order, exit: Order)
    requires PairOfFills(m, entry, exit) && entry.pair in m && entry.side == m[entry.pair].side != exit.side
    ensures SwapKeepsAverage(m, entry, exit) <==> ExtendAlike(m[entry.pair], entry, exit)
  {
    var p, x := m[entry.pair], FillPrice(entry);
    MeanIsFirst(p.quantity, p.avgPrice, entry.quantity, x);
    MeanIs(p.quantity, p.avgPrice, entry.quantity, x, entry.price);
    if exit.quantity < p.quantity { LighterMean(p.quantity, p.avgPrice, entry.quantity, x, exit.quantity); }
    hide Worth;
  }

  /** Two fills of a pair, in whatever position of the pair they find, give the same average in either order
      exactly when they commute. */
  lemma SwapKeepsAverageIff(m: map<Pair, Pos>, a: Order, b: Order)
    requires PairOfFills(m, a, b)
    ensures SwapKeepsAverage(m, a, b) <==> Commute(m, a, b)
  {
    hide SwapKeepsAverage, FlipAlike, ExtendAlike, SlipOf;
    if a.pair !in m {
      SwapOnFlat(m, a, b);
    } else if a.side == b.side {
      if a.side == m[a.pair].side { SwapEntries(m, a, b); } else { SwapExits(m, a, b); }
    } else if a.side == m[a.pair].side {
      SwapEntryAndExit(m, a, b);
    } else {
      SwapEntryAndExit(m, b, a);
      SwapIsSymmetric(m, a, b);
    }
  }

  /** For fills at their recorded prices the condition is simple: two exits must not flip the position or have one
      price, and an entry must be at the average or leave nothing of the position. */
  lemma CommuteAtRecordedPrices(m: map<Pair, Pos>, a: Order, b: Order)
    requires PairOfFills(m, a, b) && AtRecordedPrice(a) && AtRecordedPrice(b)
    ensures Commute(m, a, b) <==>
      (a.pair !in m ||
       var p := m[a.pair];
       if a.side == b.side then a.side == p.side || a.quantity + b.quantity <= p.quantity || a.price == b.price
       else
         var entry, exit := if a.side == p.side then a else b, if a.side == p.side then b else a;
         p.quantity + entry.quantity <= exit.quantity || entry.price == p.avgPrice)
  {
    WorthZero(a.quantity, a.price - b.price);
    WorthZero(b.quantity, b.price - a.price);
    if a.pair in m {
      WorthZero(m[a.pair].quantity, m[a.pair].avgPrice - a.price);
      WorthZero(m[a.pair].quantity, m[a.pair].avgPrice - b.price);
    }
    WorthOfNone(a.quantity);
    WorthOfNone(b.quantity);
    if a.pair in m {
      WorthOfNone(a.quantity - m[a.pair].quantity);
      WorthOfNone(b.quantity - m[a.pair].quantity);
    }
    hide Worth, FillPrice;
  }

  lemma WorthOfNone(q: real)
    ensures Worth(q, 0.0) == 0.0
  {
  }

  lemma SwapIsSymmetric(m: map<Pair, Pos>, a: Order, b: Order)
    requires a.pair == b.pair
    ensures SwapKeepsAverage(m, a, b) <==> SwapKeepsAverage(m, b, a)
  {
    hide Apply;
  }

  // ----- whole histories -----

  /** Both have a position of the pair of one side, size and average, or none. */
  predicate SameStake(m: map<Pair, Pos>, n: map<Pair, Pos>, pair: Pair) {
    && (pair in m <==> pair in n)
    && (pair in m ==> m[pair].side == n[pair].side && m[pair].quantity == n[pair].quantity
                      && m[pair].avgPrice == n[pair].avgPrice)
  }

  lemma {:induction false} StakesStay(m: map<Pair, Pos>, n: map<Pair, Pos>, fills: seq<Order>, pair: Pair)
    requires SameStake(m, n, pair)
    ensures SameStake(ApplyAll(m, fills), ApplyAll(n, fills), pair)
  {
    if fills != [] {
      var init, o := fills[..|fills|-1], fills[|fills|-1];
      StakesStay(m, n, init, pair);
      StakeStays(ApplyAll(m, init), ApplyAll(n, init), o, pair);
    }
  }

  lemma StakeStays(m: map<Pair, Pos>, n: map<Pair, Pos>, o: Order, pair: Pair)
    requires SameStake(m, n, pair)
    ensures SameStake(Apply(m, o), Apply(n, o), pair)
  {
    hide Worth;
  }

  /** Two commuting fills may be processed in either order anywhere in a history. */
  lemma SwapAnywhere(before: seq<Order>, a: Order, b: Order, after: seq<Order>, pair: Pair)
    requires PairOfFills(ApplyAll(map[], before), a, b) && Commute(ApplyAll(map[], before), a, b)
    ensures SameStake(ApplyAll(map[], before + [a, b] + after), ApplyAll(map[], before + [b, a] + after), pair)
  {
    var m := ApplyAll(map[], before);
    hide Apply, ApplyAll, Commute, PairOfFills;
    ApplyInParts(map[], before + [a, b], after);
    ApplyInParts(map[], before + [b, a], after);
    TwoMore(before, a, b);
    TwoMore(before, b, a);
    SwapKeepsStake(m, a, b, pair);
    StakesStay(Apply(Apply(m, a), b), Apply(Apply(m, b), a), after, pair);
  }

  lemma SwapKeepsStake(m: map<Pair, Pos>, a: Order, b: Order, pair: Pair)
    requires PairOfFills(m, a, b) && Commute(m, a, b)
    ensures SameStake(Apply(Apply(m, a), b), Apply(Apply(m, b), a), pair)
  {
    SwapKeepsAverageIff(m, a, b);
    ApplyAddsFill(m, a, pair);
    ApplyAddsFill(m, b, pair);
    ApplyAddsFill(Apply(m, a), b, pair);
    ApplyAddsFill(Apply(m, b), a, pair);
    if pair != a.pair {
      ApplyAt(m, m, a, pair);
      ApplyAt(m, m, b, pair);
      ApplyAt(Apply(m, a), m, b, pair);
      ApplyAt(Apply(m, b), m, a, pair);
    }
    hide Apply, Commute, Weight;
  }

  lemma TwoMore(s: seq<Order>, a: Order, b: Order)
    ensures ApplyAll(map[], s + [a, b]) == Apply(Apply(ApplyAll(map[], s), a), b)
  {
    assert s + [a, b] == s + [a] + [b];
    ReplayOne(s + [a], b);
    ReplayOne(s, a);
  }

  // ----- one side only -----

  predicate OneSided(fills: seq<Order>, side: Side, pair: Pair) {
    forall i :: 0 <= i < |fills| ==> IsFill(fills[i]) && fills[i].side == side && fills[i].pair == pair
  }

  /** A position built on one side only is worth, at its average, what its fills were filled at, but the first one
      counts at its recorded price. */
  lemma {:induction false} OneSidedCost(fills: seq<Order>, side: Side, pair: Pair)
    requires OneSided(fills, side, pair) && fills != []
    ensures var m := ApplyAll(map[], fills);
      && pair in m && m[pair].side == side && m[pair].quantity > 0.0
      && Worth(m[pair].quantity, m[pair].avgPrice) == Sum(Paid(pair), fills) - SlipOf(fills[0])
  {
    var init, o := fills[..|fills|-1], fills[|fills|-1];
    assert OneSided([o], side, pair);
    if init == [] {
      assert ApplyAll(map[], init) == map[] && Sum(Paid(pair), init) == 0.0;
    } else {
      assert forall i :: 0 <= i < |init| ==> init[i] == fills[i];
      OneSidedCost(init, side, pair);
      MeanCost(ApplyAll(map[], init)[pair], o);
    }
    hide Worth, FillPrice;
  }

  lemma MeanCost(p: Pos, o: Order)
    requires p.side == o.side && p.quantity > 0.0 && IsFill(o)
    ensures var u := Updated(p, o);
      && u.Some? && u.value.side == p.side && u.value.quantity == p.quantity + o.quantity
      && Worth(u.value.quantity, u.value.avgPrice) == Worth(p.quantity, p.avgPrice) + Worth(o.quantity, FillPrice(o))
  {
    var mean := Mean(p.quantity, p.avgPrice, o.quantity, FillPrice(o));
    assert mean * (p.quantity + o.quantity) == Worth(p.quantity, p.avgPrice) + Worth(o.quantity, FillPrice(o));
  }

  /** Two orders of processing the same fills of one side give one stake exactly when their first fills slip alike. */
  lemma OneSidedStakes(a: seq<Order>, b: seq<Order>, side: Side, pair: Pair)
    requires multiset(a) == multiset(b) && OneSided(b, side, pair) && b != []
    ensures a != [] &&
      (SameStake(ApplyAll(map[], a), ApplyAll(map[], b), pair) <==> SlipOf(a[0]) == SlipOf(b[0]))
  {
    hide Apply, ApplyAll, OneSided, Sum, SlipOf, Worth;
    assert |a| == |multiset(a)| == |multiset(b)| == |b|;
    OneSidedIgnoresOrder(a, b, side, pair);
    OneSidedCost(a, side, pair);
    OneSidedCost(b, side, pair);
    SumIgnoresOrder(Paid(pair), a, b);
    SumIgnoresOrder(Signed(pair), a, b);
    OneSidedSizes(a, pair, side);
    OneSidedSizes(b, pair, side);
    var x, y := ApplyAll(map[], a), ApplyAll(map[], b);
    SameQuotient(x[pair].quantity, x[pair].avgPrice, y[pair].avgPrice);
  }

  /** So a pair whose fills are all on one side is restored with its live side, size and average exactly when the
      fill that was created first slips by as much as the fill that was processed first. */
  lemma OneSidedRestoredIff(history: seq<Order>, live: seq<Order>, side: Side, pair: Pair)
    requires FillsOf(history, live) && OneSided(OfPair(live, pair), side, pair) && OfPair(live, pair) != []
    ensures var created := OfPair(SortByTime(FilledOnly(history)), pair);
      created != [] &&
      (SameStake(Restored(history), ApplyAll(map[], live), pair) <==>
         SlipOf(created[0]) == SlipOf(OfPair(live, pair)[0]))
  {
    var sorted := SortByTime(FilledOnly(history));
    hide Apply, ApplyAll, SortByTime, FilledOnly, FillsOf, OfPair, OneSided, SlipOf;
    SameFills(history, live);
    RestoredIs(history);
    SamePairFills(sorted, live, pair);
    PositionOfPair(sorted, pair);
    PositionOfPair(live, pair);
    OneSidedStakes(OfPair(sorted, pair), OfPair(live, pair), side, pair);
  }

  /** In particular if all of them are recorded at the price they were filled at, as all but group stops are. */
  lemma OneSidedAverageIsRestored(history: seq<Order>, live: seq<Order>, side: Side, pair: Pair)
    requires FillsOf(history, live) && OneSided(OfPair(live, pair), side, pair)
    requires forall i :: 0 <= i < |OfPair(live, pair)| ==> AtRecordedPrice(OfPair(live, pair)[i])
    ensures SameStake(Restored(history), ApplyAll(map[], live), pair)
  {
    var sorted := SortByTime(FilledOnly(history));
    hide Apply, ApplyAll, SortByTime, FilledOnly, FillsOf, OfPair, OneSided;
    SameFills(history, live);
    SamePairFills(sorted, live, pair);
    var a, b := OfPair(sorted, pair), OfPair(live, pair);
    if b == [] {
      assert |a| == |multiset(a)| == |multiset(b)| == 0;
      RestoredIs(history);
      PositionOfPair(sorted, pair);
      PositionOfPair(live, pair);
    } else {
      OneSidedRestoredIff(history, live, side, pair);
      var k := SameElements(a, b, 0);
    }
  }

  /** Two stops that slip by different amounts: recorded at 7 and 5 and filled at 9 and 6, they average 6.5 if the
      first was processed first, and 7 otherwise. */
  lemma StopsSlipApart()
    ensures var p := Pair("BTC", "USDT");
      var a := Order(1, 1, p, Sell, StopLoss, Filled, 7.0, 1.0, 1, 5, Some(9.0), None);
      var b := Order(2, 2, p, Sell, StopLoss, Filled, 5.0, 1.0, 2, 4, Some(6.0), None);
      var x, y := Apply(Apply(map[], a), b), Apply(Apply(map[], b), a);
      p in x && p in y && x[p].avgPrice == 6.5 && y[p].avgPrice == 7.0
  {
  }

  lemma SamePairFills(a: seq<Order>, b: seq<Order>, pair: Pair)
    requires multiset(a) == multiset(b)
    ensures multiset(OfPair(a, pair)) == multiset(OfPair(b, pair))
  {
    forall o ensures multiset(OfPair(a, pair))[o] == multiset(OfPair(b, pair))[o] {
      OfPairElements(a, pair, o);
      OfPairElements(b, pair, o);
    }
  }

  lemma OneSidedIgnoresOrder(a: seq<Order>, b: seq<Order>, side: Side, pair: Pair)
    requires multiset(a) == multiset(b) && OneSided(b, side, pair)
    ensures OneSided(a, side, pair)
  {
    forall i | 0 <= i < |a|
      ensures IsFill(a[i]) && a[i].side == side && a[i].pair == pair
    {
      assert a[i] in multiset(a);
      assert a[i] in multiset(b);
    }
  }

  lemma OneSidedSizes(a: seq<Order>, pair: Pair, side: Side)
    requires OneSided(a, side, pair)
    ensures SignedSize(ApplyAll(map[], a), pair) == Sum(Signed(pair), a)
  {
    PositionsAreNetOfFills(map[], a, pair);
  }

  lemma SameQuotient(q: real, x: real, y: real)
    requires q != 0.0
    ensures Worth(q, x) == Worth(q, y) <==> x == y
  {
    assert Worth(q, x) - Worth(q, y) == q * (x - y);
  }
}
