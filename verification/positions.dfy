/** Open positions as a function of the fills applied to them. */
module Positions {
  import opened Types
  import opened Ledger
  import opened Sorting

  datatype Pos = Pos(side: Side, avgPrice: real, quantity: real, createdAt: int)

  /** A fill on the same side blends in; one on the other side reduces, closes or flips. */
  function Updated(p: Pos, o: Order): Option<Pos> {
    if p.side == o.side then
      var total := p.quantity + o.quantity;
      if total == 0.0 then Some(p) // does not occur for positive quantities
      else Some(p.(avgPrice := (Worth(p.quantity, p.avgPrice) + Worth(o.quantity, FillPrice(o))) / total,
                   quantity := total))
    else if p.quantity == o.quantity then None
    else if p.quantity > o.quantity then Some(p.(quantity := p.quantity - o.quantity))
    else Some(Pos(o.side, FillPrice(o), o.quantity - p.quantity, o.createdAt))
  }

  /** The value a fill is reported to realise, if it is on the other side. The position it is computed from
      is the updated one, or the old one when the fill closes it. */
  function Realized(p: Pos, o: Order): Option<real> {
    if p.side == o.side then None
    else
      var u := Updated(p, o);
      var after := if u.Some? then u.value else p;
      Some(Worth(MinReal(after.quantity, o.quantity), FillPrice(o) - after.avgPrice))
  }

  /** What the closed part of the position has gained. */
  function Gain(p: Pos, o: Order): real {
    var closed := Worth(MinReal(p.quantity, o.quantity), FillPrice(o) - p.avgPrice);
    if p.side == Buy then closed else -closed
  }

  /** The reported value is the gain exactly for a long that is closed or of which at most half is sold, or when
      nothing is gained. */
  lemma RealizedIsGainIff(p: Pos, o: Order)
    requires p.side != o.side && p.quantity > 0.0 && o.quantity > 0.0
    ensures Realized(p, o) == Some(Gain(p, o)) <==>
      FillPrice(o) == p.avgPrice || (p.side == Buy && (o.quantity == p.quantity || 2.0 * o.quantity <= p.quantity))
  {
    var d, rest := FillPrice(o) - p.avgPrice, p.quantity - o.quantity;
    WorthAgrees(MinReal(rest, o.quantity), o.quantity, d);
    WorthAgrees(MinReal(rest, o.quantity), -o.quantity, d);
    WorthAgrees(p.quantity, -p.quantity, d);
    WorthAgrees(0.0, p.quantity, d);
    WorthAgrees(0.0, -p.quantity, d);
    WorthNegated(o.quantity, d);
    WorthNegated(p.quantity, d);
    WorthZeroes(o.quantity - p.quantity, o.quantity, d);
    hide Worth;
  }

  lemma WorthAgrees(x: real, y: real, d: real)
    ensures Worth(x, d) == Worth(y, d) <==> x == y || d == 0.0
  {
    assert Worth(x, d) - Worth(y, d) == (x - y) * d;
  }

  lemma WorthNegated(x: real, d: real)
    ensures Worth(-x, d) == -Worth(x, d)
  {
  }

  lemma WorthZeroes(x: real, y: real, d: real)
    ensures Worth(MinReal(x, y), 0.0) == Worth(0.0, d) == 0.0
  {
  }

  /** The first fill of a pair opens its position at the recorded price, stop order or not. */
  function Apply(m: map<Pair, Pos>, o: Order): map<Pair, Pos> {
    if o.pair !in m then m[o.pair := Pos(o.side, o.price, o.quantity, o.createdAt)]
    else match Updated(m[o.pair], o)
      case None => m - {o.pair}
      case Some(p) => m[o.pair := p]
  }

  function ApplyAll(m: map<Pair, Pos>, fills: seq<Order>): map<Pair, Pos> {
    if fills == [] then m else Apply(ApplyAll(m, fills[..|fills|-1]), fills[|fills|-1])
  }

  function SignedSize(m: map<Pair, Pos>, pair: Pair): real {
    if pair !in m then 0.0 else if m[pair].side == Buy then m[pair].quantity else -m[pair].quantity
  }

  predicate Sizes(m: map<Pair, Pos>) { forall p :: p in m ==> m[p].quantity > 0.0 }

  predicate IsFill(o: Order) { o.status == Filled && o.quantity > 0.0 }

  predicate AreFills(fills: seq<Order>) { forall i :: 0 <= i < |fills| ==> IsFill(fills[i]) }

  /** One fill changes the signed size of its pair by its signed quantity, and no other. */
  lemma ApplyAddsFill(m: map<Pair, Pos>, o: Order, pair: Pair)
    requires Sizes(m) && IsFill(o)
    ensures Sizes(Apply(m, o))
    ensures SignedSize(Apply(m, o), pair) == SignedSize(m, pair) + Weight(Signed(pair), o)
  {
  }

  /** Positions are the net of the fills: present with a positive quantity, or absent at net zero. */
  lemma {:induction false} PositionsAreNetOfFills(m: map<Pair, Pos>, fills: seq<Order>, pair: Pair)
    requires Sizes(m) && forall i :: 0 <= i < |fills| ==> IsFill(fills[i])
    ensures Sizes(ApplyAll(m, fills))
    ensures SignedSize(ApplyAll(m, fills), pair) == SignedSize(m, pair) + Sum(Signed(pair), fills)
    ensures pair !in ApplyAll(m, fills) <==> SignedSize(m, pair) + Sum(Signed(pair), fills) == 0.0
  {
    if fills != [] {
      var init := fills[..|fills|-1];
      assert forall i :: 0 <= i < |init| ==> init[i] == fills[i];
      PositionsAreNetOfFills(m, init, pair);
      ApplyAddsFill(ApplyAll(m, init), fills[|fills|-1], pair);
    }
  }

  /** A position is as old as the fill that opened it, or flipped it to the side it has had since. */
  lemma {:induction false} OpenedBy(fills: seq<Order>, pair: Pair) returns (k: nat)
    requires AreFills(fills) && pair in ApplyAll(map[], fills)
    ensures k < |fills| && fills[k].pair == pair && ApplyAll(map[], fills)[pair].createdAt == fills[k].createdAt
    ensures var m := ApplyAll(map[], fills[..k]); pair in m ==> m[pair].side != fills[k].side
    ensures forall j :: k < j <= |fills| ==>
      pair in ApplyAll(map[], fills[..j]) && ApplyAll(map[], fills[..j])[pair].side == fills[k].side
  {
    hide Worth;
    var n := |fills| - 1;
    var init, o := fills[..n], fills[n];
    var m := ApplyAll(map[], init);
    assert fills[..|fills|] == fills;
    assert forall j :: 0 <= j <= n ==> init[..j] == fills[..j];
    PositionsAreNetOfFills(map[], init, pair);
    if o.pair == pair && (pair !in m || (m[pair].side != o.side && m[pair].quantity <= o.quantity)) {
      k := n;
    } else {
      k := OpenedBy(init, pair);
    }
  }

  // ----- the average price -----

  /** The prices of the entries of the open position of a pair, since it was opened or flipped. */
  function Entries(fills: seq<Order>, pair: Pair): set<real> {
    if fills == [] then {}
    else
      var init, o := fills[..|fills|-1], fills[|fills|-1];
      var m := ApplyAll(map[], init);
      if o.pair != pair then Entries(init, pair)
      else if pair !in m then {o.price}
      else if m[pair].side == o.side then Entries(init, pair) + {FillPrice(o)}
      else if m[pair].quantity > o.quantity then Entries(init, pair)
      else if m[pair].quantity == o.quantity then {}
      else {FillPrice(o)}
  }

  lemma WorthBounds(quantity: real, price: real, lo: real, hi: real)
    requires quantity > 0.0 && lo <= price <= hi
    ensures Worth(quantity, lo) <= Worth(quantity, price) <= Worth(quantity, hi)
  {
  }

  lemma WorthOfSum(a: real, b: real, price: real)
    ensures Worth(a + b, price) == Worth(a, price) + Worth(b, price)
  {
  }

  lemma BlendIsBetween(q1: real, p1: real, q2: real, p2: real, lo: real, hi: real)
    requires q1 > 0.0 && q2 > 0.0 && lo <= p1 <= hi && lo <= p2 <= hi
    ensures lo <= (Worth(q1, p1) + Worth(q2, p2)) / (q1 + q2) <= hi
  {
    hide Worth;
    WorthBounds(q1, p1, lo, hi);
    WorthBounds(q2, p2, lo, hi);
    WorthOfSum(q1, q2, lo);
    WorthOfSum(q1, q2, hi);
    DivideBounds(Worth(q1, p1) + Worth(q2, p2), q1 + q2, lo, hi);
  }

  lemma DivideBounds(cost: real, n: real, lo: real, hi: real)
    requires n > 0.0 && Worth(n, lo) <= cost <= Worth(n, hi)
    ensures lo <= cost / n <= hi
  {
    var x := cost / n;
    assert x * n == cost;
    NonNegativeFactor(x - lo, n);
    NonNegativeFactor(hi - x, n);
  }

  lemma NonNegativeFactor(x: real, n: real)
    requires n > 0.0 && x * n >= 0.0
    ensures x >= 0.0
  {
  }

  /** The average price of an open position lies between its cheapest and its dearest entry. */
  lemma {:induction false} AverageWithinEntries(fills: seq<Order>, pair: Pair, lo: real, hi: real)
    requires forall i :: 0 <= i < |fills| ==> IsFill(fills[i])
    requires pair in ApplyAll(map[], fills)
    requires forall x :: x in Entries(fills, pair) ==> lo <= x <= hi
    ensures lo <= ApplyAll(map[], fills)[pair].avgPrice <= hi
  {
    assert fills != [];
    var init, o := fills[..|fills|-1], fills[|fills|-1];
    var m := ApplyAll(map[], init);
    assert forall i :: 0 <= i < |init| ==> init[i] == fills[i];
    PositionsAreNetOfFills(map[], init, pair);
    if o.pair != pair {
      assert Entries(fills, pair) == Entries(init, pair);
      AverageWithinEntries(init, pair, lo, hi);
    } else if pair !in m {
      assert o.price in Entries(fills, pair);
    } else if m[pair].side == o.side {
      assert FillPrice(o) in Entries(fills, pair);
      AverageWithinEntries(init, pair, lo, hi);
      BlendIsBetween(m[pair].quantity, m[pair].avgPrice, o.quantity, FillPrice(o), lo, hi);
    } else if m[pair].quantity > o.quantity {
      assert Entries(fills, pair) == Entries(init, pair);
      AverageWithinEntries(init, pair, lo, hi);
    } else if m[pair].quantity < o.quantity {
      assert FillPrice(o) in Entries(fills, pair);
    }
  }

  // ----- restoring -----

  /** The order in which a restored history is replayed: creation time, then storage id. */
  predicate Before(a: Order, b: Order) {
    a.createdAt < b.createdAt || (a.createdAt == b.createdAt && a.id < b.id)
  }

  predicate Chronological(s: seq<Order>) { StrictlySorted(s, Before) }

  /** No two orders share creation time and id. */
  predicate Distinguished(s: seq<Order>) {
    forall i, j :: 0 <= i < j < |s| ==> Before(s[i], s[j]) || Before(s[j], s[i])
  }

  function FilledOnly(s: seq<Order>): (r: seq<Order>)
    ensures forall i :: 0 <= i < |r| ==> r[i] in s && r[i].status == Filled
  {
    if s == [] then []
    else FilledOnly(s[..|s|-1]) + if s[|s|-1].status == Filled then [s[|s|-1]] else []
  }

  lemma FilledAppend(s: seq<Order>, o: Order)
    ensures FilledOnly(s + [o]) == if o.status == Filled then FilledOnly(s) + [o] else FilledOnly(s)
  {
    assert (s + [o])[..|s|] == s;
  }

  /** An order that becomes filled joins the fills. */
  lemma FilledUpdate(s: seq<Order>, k: nat, o: Order)
    requires k < |s| && s[k].status != Filled
    ensures multiset(FilledOnly(s[k := o]))
         == multiset(FilledOnly(s)) + if o.status == Filled then multiset{o} else multiset{}
  {
    hide FilledOnly;
    var gained := if o.status == Filled then multiset{o} else multiset{};
    assert multiset(s[k := o]) == multiset(s) - multiset{s[k]} + multiset{o};
    forall x: Order ensures multiset(FilledOnly(s[k := o]))[x] == multiset(FilledOnly(s))[x] + gained[x] {
      FilledElements(s[k := o], x);
      FilledElements(s, x);
    }
    assert multiset(FilledOnly(s[k := o])) == multiset(FilledOnly(s)) + gained;
  }

  lemma {:induction false} FilledKeepsSum(pair: Pair, s: seq<Order>)
    ensures Sum(Signed(pair), FilledOnly(s)) == Sum(Signed(pair), s)
  {
    hide FilledOnly, Sum;
    if s == [] {
      NoFillsNoSum(pair);
    } else {
      var init, o := s[..|s|-1], s[|s|-1];
      FilledKeepsSum(pair, init);
      assert init + [o] == s;
      SumAppend(Signed(pair), FilledOnly(init), o);
      SumAppend(Signed(pair), init, o);
      FilledAppend(init, o);
    }
  }

  lemma NoFillsNoSum(pair: Pair)
    ensures Sum(Signed(pair), FilledOnly([])) == Sum(Signed(pair), [])
  {
  }

  /** Inserts o after every element that does not come later. */
  function Insert(s: seq<Order>, o: Order): seq<Order> {
    if s != [] && Before(o, s[|s|-1]) then Insert(s[..|s|-1], o) + [s[|s|-1]] else s + [o]
  }

  /** The stable sort by creation time, then id. */
  function SortByTime(s: seq<Order>): seq<Order> {
    if s == [] then [] else Insert(SortByTime(s[..|s|-1]), s[|s|-1])
  }

  /** The positions rebuilt from an order history. */
  function Restored(history: seq<Order>): map<Pair, Pos> {
    ApplyAll(map[], SortByTime(FilledOnly(history)))
  }

  lemma {:induction false} InsertKeepsElements(s: seq<Order>, o: Order)
    ensures multiset(Insert(s, o)) == multiset(s) + multiset{o}
  {
    if s != [] && Before(o, s[|s|-1]) {
      InsertKeepsElements(s[..|s|-1], o);
      assert s == s[..|s|-1] + [s[|s|-1]];
    }
  }

  lemma {:induction false} InsertKeepsOrder(s: seq<Order>, o: Order)
    requires Chronological(s) && forall i :: 0 <= i < |s| ==> Before(s[i], o) || Before(o, s[i])
    ensures Chronological(Insert(s, o))
  {
    if s != [] && Before(o, s[|s|-1]) {
      var init := s[..|s|-1];
      InsertKeepsOrder(init, o);
      InsertKeepsElements(init, o);
      forall i | 0 <= i < |Insert(init, o)| ensures Before(Insert(init, o)[i], s[|s|-1]) {
        assert Insert(init, o)[i] in multiset(init) + multiset{o};
      }
    } else {
      forall i | 0 <= i < |s| ensures Before(s[i], o) {
        if i < |s| - 1 { assert Before(s[i], s[|s|-1]); }
      }
    }
  }

  lemma {:induction false} SortKeepsElements(s: seq<Order>)
    ensures multiset(SortByTime(s)) == multiset(s)
  {
    hide Insert;
    if s != [] {
      var init, o := s[..|s|-1], s[|s|-1];
      SortKeepsElements(init);
      InsertKeepsElements(SortByTime(init), o);
      assert s == init + [o];
      assert multiset(s) == multiset(init) + multiset{o};
    }
  }

  lemma {:induction false} SortIsChronological(s: seq<Order>)
    requires Distinguished(s)
    ensures Chronological(SortByTime(s))
    ensures var r := SortByTime(s);
      forall i, j :: 0 <= i < j < |r| ==>
        r[i].createdAt <= r[j].createdAt && (r[i].createdAt == r[j].createdAt ==> r[i].id < r[j].id)
  {
    if s != [] {
      var init, o := s[..|s|-1], s[|s|-1];
      SortIsChronological(init);
      SortKeepsElements(init);
      forall i | 0 <= i < |SortByTime(init)|
        ensures Before(SortByTime(init)[i], o) || Before(o, SortByTime(init)[i])
      {
        assert SortByTime(init)[i] in multiset(init);
      }
      InsertKeepsOrder(SortByTime(init), o);
    }
  }

  lemma {:induction false} FilledElements(s: seq<Order>, o: Order)
    ensures multiset(FilledOnly(s))[o] == if o.status == Filled then multiset(s)[o] else 0
  {
    if s != [] {
      FilledElements(s[..|s|-1], o);
      assert s == s[..|s|-1] + [s[|s|-1]];
    }
  }

  // ----- one pair at a time -----

  /** The fills of one pair, in sequence. */
  function OfPair(s: seq<Order>, pair: Pair): seq<Order> {
    if s == [] then []
    else
      var init, o := OfPair(s[..|s|-1], pair), s[|s|-1];
      if o.pair == pair then init + [o] else init
  }

  /** Both have the same position of the pair, or none. */
  predicate SameAt(m: map<Pair, Pos>, n: map<Pair, Pos>, pair: Pair) {
    (pair in m <==> pair in n) && (pair in m ==> m[pair] == n[pair])
  }

  lemma ApplyAt(m: map<Pair, Pos>, n: map<Pair, Pos>, o: Order, pair: Pair)
    requires SameAt(m, n, pair)
    ensures if o.pair == pair then SameAt(Apply(m, o), Apply(n, o), pair) else SameAt(Apply(m, o), n, pair)
  {
  }

  /** A position depends on the fills of its own pair only. */
  lemma {:induction false} PositionOfPair(s: seq<Order>, pair: Pair)
    ensures SameAt(ApplyAll(map[], s), ApplyAll(map[], OfPair(s, pair)), pair)
  {
    hide Apply;
    if s != [] {
      var init, o := s[..|s|-1], s[|s|-1];
      PositionOfPair(init, pair);
      ApplyAt(ApplyAll(map[], init), ApplyAll(map[], OfPair(init, pair)), o, pair);
      ReplayOne(OfPair(init, pair), o);
    }
  }

  lemma {:induction false} OfPairElements(s: seq<Order>, pair: Pair, o: Order)
    ensures multiset(OfPair(s, pair))[o] == if o.pair == pair then multiset(s)[o] else 0
  {
    if s != [] {
      OfPairElements(s[..|s|-1], pair, o);
      assert s == s[..|s|-1] + [s[|s|-1]];
    }
  }

  lemma {:induction false} OfPairIsChronological(s: seq<Order>, pair: Pair)
    requires Chronological(s)
    ensures Chronological(OfPair(s, pair))
    ensures forall i :: 0 <= i < |OfPair(s, pair)| ==> OfPair(s, pair)[i] in s
  {
    if s != [] {
      var init, o := s[..|s|-1], s[|s|-1];
      OfPairIsChronological(init, pair);
      forall i | 0 <= i < |OfPair(init, pair)| ensures Before(OfPair(init, pair)[i], o) {
        var x := OfPair(init, pair)[i];
        var j :| 0 <= j < |init| && init[j] == x;
        assert s[j] == x;
      }
    }
  }

  /** The fills of a history, in whatever order. */
  ghost predicate FillsOf(history: seq<Order>, live: seq<Order>) {
    forall o: Order :: multiset(live)[o] == if o.status == Filled then multiset(history)[o] else 0
  }

  lemma SameFills(history: seq<Order>, live: seq<Order>)
    requires FillsOf(history, live)
    ensures multiset(SortByTime(FilledOnly(history))) == multiset(live)
  {
    var filled := FilledOnly(history);
    forall o ensures multiset(filled)[o] == multiset(live)[o] { FilledElements(history, o); }
    assert multiset(filled) == multiset(live);
    SortKeepsElements(filled);
  }

  /** Restoring replays the fills in chronological order, whatever order the history comes in: so it
      rebuilds the live position of a pair whenever the fills of that pair were processed in that order. */
  lemma RestoreReproducesPair(history: seq<Order>, live: seq<Order>, pair: Pair)
    requires Chronological(OfPair(live, pair)) && Distinguished(FilledOnly(history))
    requires FillsOf(history, live)
    ensures SameAt(Restored(history), ApplyAll(map[], live), pair)
  {
    hide Apply, ApplyAll, SortByTime, FilledOnly, Distinguished, Chronological, FillsOf, Before;
    var sorted := SortByTime(FilledOnly(history));
    SameFills(history, live);
    SortIsChronological(FilledOnly(history));
    OfPairIsChronological(sorted, pair);
    forall o ensures multiset(OfPair(sorted, pair))[o] == multiset(OfPair(live, pair))[o] {
      OfPairElements(sorted, pair, o);
      OfPairElements(live, pair, o);
    }
    assert multiset(OfPair(sorted, pair)) == multiset(OfPair(live, pair));
    ChronologicalIsUnique(OfPair(sorted, pair), OfPair(live, pair));
    PositionOfPair(sorted, pair);
    PositionOfPair(live, pair);
  }

  lemma ChronologicalIsUnique(a: seq<Order>, b: seq<Order>)
    requires Chronological(a) && Chronological(b) && multiset(a) == multiset(b)
    ensures a == b
  {
    StrictIsInOrder(a, Before);
    SortedIsUnique(a, b, Before);
  }

  /** So all live positions are rebuilt whenever each pair's fills were processed in that order. */
  lemma RestoreReproducesLive(history: seq<Order>, live: seq<Order>)
    requires forall p: Pair :: Chronological(OfPair(live, p))
    requires Distinguished(FilledOnly(history)) && FillsOf(history, live)
    ensures Restored(history) == ApplyAll(map[], live)
  {
    hide FillsOf, Restored, ApplyAll, Chronological, OfPair, SameAt, Distinguished, FilledOnly;
    forall p: Pair ensures SameAt(Restored(history), ApplyAll(map[], live), p) {
      assert Chronological(OfPair(live, p));
      RestoreReproducesPair(history, live, p);
    }
    SameEverywhere(Restored(history), ApplyAll(map[], live));
  }

  lemma SameEverywhere(m: map<Pair, Pos>, n: map<Pair, Pos>)
    requires forall p: Pair :: SameAt(m, n, p)
    ensures m == n
  {
    forall p ensures p in m <==> p in n { assert SameAt(m, n, p); }
    forall p | p in m ensures m[p] == n[p] { assert SameAt(m, n, p); }
  }

  lemma RestoreIgnoresHistoryOrder(a: seq<Order>, b: seq<Order>)
    requires multiset(a) == multiset(b) && Distinguished(FilledOnly(a)) && Distinguished(FilledOnly(b))
    ensures Restored(a) == Restored(b)
  {
    var live := SortByTime(FilledOnly(b));
    SortIsChronological(FilledOnly(b));
    SortKeepsElements(FilledOnly(b));
    forall o: Order ensures multiset(live)[o] == if o.status == Filled then multiset(a)[o] else 0 {
      FilledElements(b, o);
    }
    forall p: Pair ensures Chronological(OfPair(live, p)) { OfPairIsChronological(live, p); }
    hide Chronological, Restored, ApplyAll;
    assert ApplyAll(map[], live) == Restored(b) by { RestoredIs(b); }
    RestoreReproducesLive(a, live);
  }

  lemma RestoredIs(history: seq<Order>)
    ensures Restored(history) == ApplyAll(map[], SortByTime(FilledOnly(history)))
  {
  }

  lemma {:induction false} SumIgnoresOrder(m: Measure, a: seq<Order>, b: seq<Order>)
    requires multiset(a) == multiset(b)
    ensures Sum(m, a) == Sum(m, b)
  {
    assert |a| == |multiset(a)| == |multiset(b)| == |b|;
    hide Weight, Sum;
    if a == [] {
      assert a == b;
    } else {
      var n := |a| - 1;
      var j := SameElements(a, b, n);
      DropLast(a);
      RemoveAt(b, j);
      SumLast(m, a);
      SumRemove(m, b, j);
      SumIgnoresOrder(m, a[..n], b[..j] + b[j+1..]);
    }
  }

  /** Even when fills were processed out of order, every restored position has the live signed size. */
  lemma RestoreKeepsSizes(history: seq<Order>, live: seq<Order>, pair: Pair)
    requires forall i :: 0 <= i < |live| ==> IsFill(live[i])
    requires FillsOf(history, live)
    ensures SignedSize(Restored(history), pair) == SignedSize(ApplyAll(map[], live), pair)
    ensures pair in Restored(history) <==> pair in ApplyAll(map[], live)
  {
    hide SortByTime, FilledOnly, ApplyAll, SignedSize, Sum, Weight, IsFill;
    var sorted := SortByTime(FilledOnly(history));
    SortedFills(history, live);
    SumIgnoresOrder(Signed(pair), sorted, live);
    PositionsAreNetOfFills(map[], sorted, pair);
    PositionsAreNetOfFills(map[], live, pair);
  }

  lemma SortedFills(history: seq<Order>, live: seq<Order>)
    requires FillsOf(history, live) && forall i :: 0 <= i < |live| ==> IsFill(live[i])
    ensures var sorted := SortByTime(FilledOnly(history));
      multiset(sorted) == multiset(live) && forall i :: 0 <= i < |sorted| ==> IsFill(sorted[i])
  {
    SameFills(history, live);
    var sorted := SortByTime(FilledOnly(history));
    forall i | 0 <= i < |sorted| ensures IsFill(sorted[i]) {
      var j := SameElements(sorted, live, i);
    }
  }

  /** Averages do depend on the processing order. A buy at 10 that was placed first but filled last,
      after a buy at 20 and the sell that closed it, is live at 10 and restored at 15. */
  lemma LateFillChangesTheAverage() returns (history: seq<Order>, live: seq<Order>, pair: Pair)
    ensures multiset(history) == multiset(live) && forall i :: 0 <= i < |live| ==> IsFill(live[i])
    ensures Chronological(history) && pair in Restored(history) && pair in ApplyAll(map[], live)
    ensures Restored(history)[pair].avgPrice == 15.0 && ApplyAll(map[], live)[pair].avgPrice == 10.0
  {
    pair := Pair("BTC", "USDT");
    var early := Order(1, 1, pair, Buy, Limit, Filled, 10.0, 1.0, 1, 9, None, None);
    var market := Order(2, 2, pair, Buy, Market, Filled, 20.0, 1.0, 2, 2, None, None);
    var sale := Order(3, 3, pair, Sell, Market, Filled, 30.0, 1.0, 3, 3, None, None);
    history, live := [early, market, sale], [market, sale, early];
    hide Apply, ApplyAll, SortByTime, Restored, FilledOnly, Chronological, IsFill;
    SameThree(early, market, sale);
    ThreeFills(early, market, sale);
    BuySellBuy(market, sale, early);
    BuyBuySell(early, market, sale);
    RestoreOfFills(history);
  }

  lemma SameThree(a: Order, b: Order, c: Order)
    ensures multiset([a, b, c]) == multiset([b, c, a])
  {
  }

  lemma ThreeFills(a: Order, b: Order, c: Order)
    requires IsFill(a) && IsFill(b) && IsFill(c) && a.createdAt < b.createdAt < c.createdAt
    ensures Chronological([a, b, c])
    ensures forall i :: 0 <= i < 3 ==> IsFill([a, b, c][i]) && IsFill([b, c, a][i])
  {
    hide IsFill;
  }

  /** A history of fills in chronological order is restored by replaying it. */
  lemma RestoreOfFills(fills: seq<Order>)
    requires Chronological(fills) && forall i :: 0 <= i < |fills| ==> IsFill(fills[i])
    ensures Restored(fills) == ApplyAll(map[], fills)
  {
    FilledOnlyOfFills(fills);
    forall o: Order ensures multiset(fills)[o] == if o.status == Filled then multiset(fills)[o] else 0 {
      FilledElements(fills, o);
    }
    forall p: Pair ensures Chronological(OfPair(fills, p)) { OfPairIsChronological(fills, p); }
    RestoreReproducesLive(fills, fills);
  }

  lemma {:induction false} FilledOnlyOfFills(s: seq<Order>)
    requires forall i :: 0 <= i < |s| ==> s[i].status == Filled
    ensures FilledOnly(s) == s
  {
    if s != [] {
      FilledOnlyOfFills(s[..|s|-1]);
      assert s == s[..|s|-1] + [s[|s|-1]];
    }
  }

  lemma BuySellBuy(a: Order, b: Order, c: Order)
    requires a.pair == b.pair == c.pair && a.side == c.side == Buy && b.side == Sell && a.quantity == b.quantity
    ensures var m := ApplyAll(map[], [a, b, c]); c.pair in m && m[c.pair].avgPrice == c.price
  {
    ReplayThree(a, b, c);
  }

  lemma BuyBuySell(a: Order, b: Order, c: Order)
    requires a.pair == b.pair == c.pair && a.side == b.side == Buy && c.side == Sell && !IsStop(b)
    requires a.quantity == b.quantity == c.quantity == 1.0
    ensures var m := ApplyAll(map[], [a, b, c]); c.pair in m && m[c.pair].avgPrice == (a.price + b.price) / 2.0
  {
    ReplayThree(a, b, c);
  }

  lemma ReplayThree(a: Order, b: Order, c: Order)
    ensures ApplyAll(map[], [a, b, c]) == Apply(Apply(Apply(map[], a), b), c)
  {
    assert [a, b, c] == [a, b] + [c] && [a, b] == [a] + [b] && [a] == [] + [a];
    ReplayOne([a, b], c);
    ReplayOne([a], b);
    ReplayOne([], a);
  }

  lemma ReplayOne(s: seq<Order>, o: Order)
    ensures ApplyAll(map[], s + [o]) == Apply(ApplyAll(map[], s), o)
  {
    assert (s + [o])[..|s|] == s;
  }

  lemma {:induction false} ApplyInParts(m: map<Pair, Pos>, s: seq<Order>, t: seq<Order>)
    ensures ApplyAll(m, s + t) == ApplyAll(ApplyAll(m, s), t)
  {
    hide Apply;
    if t == [] {
      assert s + t == s;
    } else {
      ApplyInParts(m, s, t[..|t|-1]);
      assert (s + t)[..|s + t|-1] == s + t[..|t|-1];
    }
  }
}
