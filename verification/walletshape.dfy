/** What every reachable book looks like, whatever is traded: identifiers grow, a group has at most
    two orders, and an order whose group already sold something is no longer pending. */
module WalletShape {
  import opened Types
  import opened Ledger
  import opened WalletSpec

  predicate Sane(o: Order) {
    && o.quantity > 0.0
    && o.status in {New, Filled, Canceled}
    && (IsStop(o) ==> o.stop.Some?)
    && (o.group.Some? ==> o.exchangeId == o.group.value + 1 || o.exchangeId == o.group.value + 2)
  }

  predicate Backed(assets: map<string, Asset>, o: Order) {
    o.pair.asset in assets && o.pair.quote in assets && o.pair.asset != o.pair.quote
  }

  predicate Identified(orders: seq<Order>, counter: int) {
    && (forall i :: 0 <= i < |orders| ==> orders[i].exchangeId <= counter)
    && (forall i :: 0 <= i < |orders| && orders[i].group.Some? ==> orders[i].group.value <= counter)
    && (forall i, j :: 0 <= i < j < |orders| ==> orders[i].exchangeId < orders[j].exchangeId)
  }

  /** Of two orders of a group, both on one side, at most one has sold something and then the other is cancelled.
      Buys of a group do not cancel each other. */
  predicate SoldOnce(orders: seq<Order>) {
    forall i, j :: 0 <= i < |orders| && 0 <= j < |orders| && InGroup(orders[j], orders[i]) ==>
      GroupAllows(orders[i], orders[j])
  }

  predicate GroupAllows(o: Order, other: Order) {
    o.side == other.side && (o.side == Sell ==> !(o.status == Filled && other.status in {New, Filled}))
  }

  predicate WellFormed(b: Book) {
    && (forall i :: 0 <= i < |b.orders| ==> Sane(b.orders[i]))
    && (forall i :: 0 <= i < |b.orders| ==> Backed(b.assets, b.orders[i]))
    && Identified(b.orders, b.counter)
    && SoldOnce(b.orders)
  }

  /** Orders keep everything but their status and update time, and only pending orders change status. */
  predicate Evolves(a: seq<Order>, b: seq<Order>) {
    && |a| == |b|
    && (forall k :: 0 <= k < |a| ==> b[k] == a[k].(status := b[k].status, updatedAt := b[k].updatedAt))
    && (forall k :: 0 <= k < |a| && a[k].status != New ==> b[k].status == a[k].status)
  }

  /** The rest of an order's group is one order, wherever the search finds it. */
  lemma SiblingIsTheGroup(orders: seq<Order>, counter: int, i: nat, j: nat)
    requires forall k :: 0 <= k < |orders| ==> Sane(orders[k])
    requires Identified(orders, counter)
    requires i < |orders| && j < |orders| && InGroup(orders[j], orders[i])
    ensures Sibling(orders, orders[i], 0) == Some(j)
  {
    var s := Sibling(orders, orders[i], 0).value;
    assert InGroup(orders[s], orders[i]);
    assert Sane(orders[s]) && Sane(orders[j]) && Sane(orders[i]);
    assert orders[s].exchangeId == orders[j].exchangeId;
  }

  lemma NoSibling(orders: seq<Order>, o: Order)
    requires o.group.None?
    ensures Sibling(orders, o, 0) == None
  {
  }

  /** The orders and balances a filled sell leaves. */
  lemma SoldBook(b: Book, i: nat, c: Candle, price: real)
    requires i < |b.orders|
    ensures var o, r, s := b.orders[i], FillSell(b, i, c, price), Sibling(b.orders, b.orders[i], 0);
      && r.orders == (if s.None? then b.orders
                      else b.orders[s.value := b.orders[s.value].(status := Canceled, updatedAt := c.time)])
                     [i := o.(status := Filled, updatedAt := c.time)]
      && r.assets == Credit(Credit(b, o.pair.asset, 0.0, -o.quantity),
                            o.pair.quote, Worth(o.quantity, price), 0.0).assets
  {
    hide Sibling, Average;
  }

  lemma SoldCounter(b: Book, i: nat, c: Candle, price: real)
    requires i < |b.orders|
    ensures FillSell(b, i, c, price).counter == b.counter
  {
  }

  lemma FillSellOrders(b: Book, i: nat, c: Candle, price: real)
    requires WellFormed(b) && i < |b.orders| && b.orders[i].status == New
    requires b.orders[i].group.Some? ==> b.orders[i].side == Sell
    ensures var r := FillSell(b, i, c, price);
      && Evolves(b.orders, r.orders) && r.orders[i].status == Filled
      && r.counter == b.counter
      && forall k :: 0 <= k < |b.orders| && k != i ==>
           r.orders[k] == if InGroup(b.orders[k], b.orders[i])
                          then b.orders[k].(status := Canceled, updatedAt := c.time) else b.orders[k]
  {
    forall k | 0 <= k < |b.orders| && InGroup(b.orders[k], b.orders[i])
      ensures Sibling(b.orders, b.orders[i], 0) == Some(k)
    {
      SiblingIsTheGroup(b.orders, b.counter, i, k);
    }
    SoldBook(b, i, c, price);
    var o := b.orders[i];
    var s := Sibling(b.orders, o, 0);
    assert s.Some? ==> InGroup(b.orders[s.value], o) && InGroup(o, b.orders[s.value]);
    SoldCounter(b, i, c, price);
    hide FillSell, Sibling, Identified, Sane, SoldOnce, Backed;
  }

  lemma SoldOnceAfterSale(a: seq<Order>, b: seq<Order>, i: nat)
    requires SoldOnce(a) && Evolves(a, b) && i < |a|
    requires a[i].status == New && b[i].status == Filled
    requires forall k :: 0 <= k < |a| && k != i ==>
      b[k].status == if InGroup(a[k], a[i]) then Canceled else a[k].status
    ensures SoldOnce(b)
  {
    forall x, y | 0 <= x < |b| && 0 <= y < |b| && InGroup(b[y], b[x])
      ensures GroupAllows(b[x], b[y])
    {
      assert InGroup(a[y], a[x]) && InGroup(a[x], a[y]);
    }
  }

  lemma SoldOnceAfterBuy(a: seq<Order>, b: seq<Order>, i: nat)
    requires SoldOnce(a) && Evolves(a, b) && i < |a| && a[i].side == Buy
    requires forall k :: 0 <= k < |a| && k != i ==> b[k] == a[k]
    ensures SoldOnce(b)
  {
    forall x, y | 0 <= x < |b| && 0 <= y < |b| && InGroup(b[y], b[x])
      ensures GroupAllows(b[x], b[y])
    {
      assert InGroup(a[y], a[x]);
    }
  }

  lemma EvolvingKeepsShape(b: Book, r: Book)
    requires WellFormed(b) && Evolves(b.orders, r.orders) && SoldOnce(r.orders)
    requires forall k :: 0 <= k < |r.orders| ==> r.orders[k].status in {New, Filled, Canceled}
    requires b.assets.Keys <= r.assets.Keys && r.counter == b.counter
    ensures WellFormed(r)
  {
    forall k | 0 <= k < |r.orders| ensures Sane(r.orders[k]) && Backed(r.assets, r.orders[k]) {
      assert Sane(b.orders[k]) && Backed(b.assets, b.orders[k]);
    }
  }

  lemma FillSellKeepsShape(b: Book, i: nat, c: Candle, price: real)
    requires WellFormed(b) && i < |b.orders| && b.orders[i].status == New
    requires b.orders[i].group.Some? ==> b.orders[i].side == Sell
    ensures WellFormed(FillSell(b, i, c, price)) && Evolves(b.orders, FillSell(b, i, c, price).orders)
  {
    var r := FillSell(b, i, c, price);
    FillSellOrders(b, i, c, price);
    SoldOnceAfterSale(b.orders, r.orders, i);
    EvolvingKeepsShape(b, r);
  }

  lemma FillBuyKeepsShape(b: Book, i: nat, c: Candle)
    requires WellFormed(b) && i < |b.orders| && b.orders[i].status == New && b.orders[i].side == Buy
    ensures WellFormed(FillBuy(b, i, c)) && Evolves(b.orders, FillBuy(b, i, c).orders)
  {
    var r := FillBuy(b, i, c);
    assert Sane(b.orders[i]);
    assert r.orders == b.orders[i := b.orders[i].(status := Filled, updatedAt := c.time)];
    SoldOnceAfterBuy(b.orders, r.orders, i);
    EvolvingKeepsShape(b, r);
  }

  lemma MatchKeepsShape(b: Book, i: nat, c: Candle)
    requires WellFormed(b) && i < |b.orders|
    ensures WellFormed(Match(b, i, c)) && Evolves(b.orders, Match(b, i, c).orders)
  {
    var o := b.orders[i];
    if o.pair == c.pair && o.status == New {
      if o.side == Buy {
        if o.price >= c.close { FillBuyKeepsShape(b, i, c); }
      } else if Trigger(o, c).Some? {
        FillSellKeepsShape(b, i, c, Trigger(o, c).value);
      }
    }
  }

  lemma EvolvesReflexive(a: seq<Order>)
    ensures Evolves(a, a)
  {
  }

  lemma EvolvesTransitive(a: seq<Order>, b: seq<Order>, c: seq<Order>)
    requires Evolves(a, b) && Evolves(b, c)
    ensures Evolves(a, c)
  {
  }

  lemma MatchExtendsRun(b: Book, m: Book, i: nat, c: Candle)
    requires WellFormed(m) && Evolves(b.orders, m.orders) && i < |m.orders|
    ensures WellFormed(Match(m, i, c)) && Evolves(b.orders, Match(m, i, c).orders)
  {
    MatchKeepsShape(m, i, c);
    EvolvesTransitive(b.orders, m.orders, Match(m, i, c).orders);
  }

  lemma {:induction false} ScanKeepsShape(b: Book, c: Candle, n: nat)
    requires WellFormed(b) && n <= |b.orders|
    ensures WellFormed(Scan(b, c, n)) && Evolves(b.orders, Scan(b, c, n).orders)
  {
    hide Match, WellFormed, Evolves;
    if n == 0 {
      EvolvesReflexive(b.orders);
    } else {
      ScanKeepsShape(b, c, n - 1);
      var m := Scan(b, c, n - 1);
      MatchExtendsRun(b, m, n - 1, c);
    }
  }

  /** Orders that are not pending for the candle's pair are passed over. */
  lemma {:induction false} ScanSkips(b: Book, c: Candle, m: nat, n: nat)
    requires WellFormed(b) && m <= n <= |b.orders|
    requires forall k :: m <= k < n ==> b.orders[k].pair != c.pair || b.orders[k].status != New
    ensures Scan(b, c, n) == Scan(b, c, m)
    decreases n - m
  {
    hide WellFormed, Evolves, Match;
    if m < n {
      ScanSkips(b, c, m, n - 1);
      ScanKeepsShape(b, c, n - 1);
      MatchPasses(b, Scan(b, c, n - 1), n - 1, c);
    }
  }

  lemma MatchPasses(b: Book, m: Book, i: nat, c: Candle)
    requires Evolves(b.orders, m.orders) && i < |b.orders|
    requires b.orders[i].pair != c.pair || b.orders[i].status != New
    ensures i < |m.orders| && Match(m, i, c) == m
  {
    hide FillSell, FillBuy, Trigger;
    assert m.orders[i].pair == b.orders[i].pair;
  }

  lemma TouchKeepsShape(b: Book, pair: Pair)
    requires WellFormed(b)
    ensures WellFormed(Touch(b, pair))
  {
    forall k | 0 <= k < |b.orders| ensures Backed(Touch(b, pair).assets, b.orders[k]) {
      assert Backed(b.assets, b.orders[k]);
    }
  }

  lemma FreshGroup(b: Book, o: Order)
    requires WellFormed(b) && (o.group.Some? ==> o.group.value > b.counter)
    ensures forall i :: 0 <= i < |b.orders| ==> !InGroup(b.orders[i], o)
  {
  }

  /** A fresh order extends a well-formed book. */
  lemma AppendKeepsShape(b: Book, r: Book, o: Order)
    requires WellFormed(b) && r.orders == b.orders + [o]
    requires b.assets.Keys <= r.assets.Keys && b.counter < o.exchangeId <= r.counter
    requires Sane(o) && Backed(r.assets, o)
    requires o.group.Some? ==> o.group.value <= r.counter && o.status == New
    requires forall i :: 0 <= i < |b.orders| && InGroup(b.orders[i], o) ==>
      b.orders[i].status == New && b.orders[i].side == o.side
    ensures WellFormed(r)
  {
    forall k | 0 <= k < |r.orders| ensures Sane(r.orders[k]) && Backed(r.assets, r.orders[k]) {
      assert k < |b.orders| ==> Sane(b.orders[k]) && Backed(b.assets, b.orders[k]);
    }
    forall i, j | 0 <= i < |r.orders| && 0 <= j < |r.orders| && InGroup(r.orders[j], r.orders[i])
      ensures GroupAllows(r.orders[i], r.orders[j])
    {
    }
  }

  lemma SoldOnceAfterCancel(a: seq<Order>, i: nat)
    requires SoldOnce(a) && i < |a|
    ensures SoldOnce(a[i := a[i].(status := Canceled)])
  {
    var b := a[i := a[i].(status := Canceled)];
    forall x, y | 0 <= x < |b| && 0 <= y < |b| && InGroup(b[y], b[x])
      ensures GroupAllows(b[x], b[y])
    {
      assert InGroup(a[y], a[x]);
    }
  }

  lemma CancelledOrders(b: Book, k: nat)
    requires k < |b.orders|
    ensures CancelOrder(b, k).orders == b.orders[k := b.orders[k].(status := Canceled)]
  {
  }

  lemma CancelKeepsShape(b: Book, i: nat)
    requires WellFormed(b) && i < |b.orders|
    ensures WellFormed(CancelOrder(b, i))
    ensures b.orders[i].status == New ==> Evolves(b.orders, CancelOrder(b, i).orders)
  {
    hide SoldOnce;
    var r := CancelOrder(b, i);
    CancelledOrders(b, i);
    SoldOnceAfterCancel(b.orders, i);
    forall k | 0 <= k < |r.orders| ensures Sane(r.orders[k]) && Backed(r.assets, r.orders[k]) {
      assert Sane(b.orders[k]) && Backed(b.assets, b.orders[k]);
    }
  }

  /** Looking an order up by its exchange identifier finds that order alone. */
  lemma IdentifierIsUnique(b: Book, i: nat, j: nat)
    requires WellFormed(b) && i < |b.orders| && j < |b.orders|
    requires b.orders[i].exchangeId == b.orders[j].exchangeId
    ensures i == j
  {
  }
}
