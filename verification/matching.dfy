/** Which orders a candle fills and which it cancels, told from the orders as they were before it. */
module Matching {
  import opened Types
  import opened Ledger
  import opened WalletSpec
  import opened WalletShape
  import opened Equity
  import opened LongOnly

  /** The candle reaches the order's price: a buy when it closes at or below the limit, a sell when its high reaches
      the limit, and a stop sell when its low reaches the stop. */
  predicate Meets(o: Order, c: Candle) {
    if o.side == Buy then c.close <= o.price
    else if o.typ in {StopLoss, StopLossLimit} then o.stop.Some? && c.low <= o.stop.value
    else o.typ != Market && o.price <= c.high
  }

  /** A pending sell of order i's group, at position j, that the candle reaches. */
  predicate Rival(orders: seq<Order>, c: Candle, i: nat, j: nat)
    requires i < |orders| && j < |orders|
  {
    && InGroup(orders[j], orders[i]) && orders[j].side == Sell
    && orders[j].status == New && orders[j].pair == c.pair && Meets(orders[j], c)
  }

  /** Another leg of the group, among the first n orders, is reached by the candle. */
  ghost predicate Rivalled(orders: seq<Order>, c: Candle, i: nat, n: nat)
    requires i < |orders| && n <= |orders|
  {
    exists j: nat :: j < n && Rival(orders, c, i, j)
  }

  /** The status of order i once the candle was offered to the first n orders: it is filled if the candle reaches it,
      unless another leg of its group comes first, and cancelled if another leg is filled. */
  ghost function Outcome(orders: seq<Order>, c: Candle, i: nat, n: nat): Status
    requires i < |orders| && n <= |orders|
  {
    if orders[i].status != New then orders[i].status
    else if Rivalled(orders, c, i, if i < n then i else n) then Canceled
    else if i < n && orders[i].pair == c.pair && Meets(orders[i], c) then Filled
    else if Rivalled(orders, c, i, n) then Canceled
    else New
  }

  ghost predicate Seen(orders: seq<Order>, r: seq<Order>, c: Candle, n: nat)
    requires n <= |orders|
  {
    && Evolves(orders, r)
    && (forall i :: 0 <= i < |orders| ==> r[i].status == Outcome(orders, c, i, n))
    && (forall i :: 0 <= i < |orders| && r[i].status != orders[i].status ==> r[i].updatedAt == c.time)
  }

  /** An order that the candle reaches is filled, a sell at its stop price if it is a stop order, else at its limit;
      any other is left alone. */
  lemma MatchFills(b: Book, i: nat, c: Candle)
    requires i < |b.orders|
    ensures var o := b.orders[i];
      Match(b, i, c) == if o.pair != c.pair || o.status != New || !Meets(o, c) then b
                        else if o.side == Buy then FillBuy(b, i, c) else FillSell(b, i, c, FillPrice(o))
  {
    hide FillBuy, FillSell;
  }

  /** What offering the candle to order i does to the orders. */
  lemma MatchOutcome(b: Book, i: nat, c: Candle)
    requires WellFormed(b) && i < |b.orders|
    ensures var o, r := b.orders[i], Match(b, i, c).orders;
      if o.pair == c.pair && o.status == New && Meets(o, c)
      then && r[i] == o.(status := Filled, updatedAt := c.time)
           && forall k :: 0 <= k < |b.orders| && k != i ==>
                r[k] == if o.side == Sell && InGroup(b.orders[k], o)
                        then b.orders[k].(status := Canceled, updatedAt := c.time) else b.orders[k]
      else r == b.orders
  {
    var o := b.orders[i];
    MatchFills(b, i, c);
    hide WellFormed, FillBuy, FillSell, InGroup, Match, Meets, FillPrice;
    if o.pair == c.pair && o.status == New && Meets(o, c) {
      if o.side == Buy {
        FilledBuyOrders(b, i, c);
      } else {
        FillSellOrders(b, i, c, FillPrice(o));
        SoldItself(b, i, c, FillPrice(o));
      }
    }
  }

  lemma SoldItself(b: Book, i: nat, c: Candle, price: real)
    requires i < |b.orders|
    ensures FillSell(b, i, c, price).orders[i] == b.orders[i].(status := Filled, updatedAt := c.time)
  {
    SoldBook(b, i, c, price);
    hide FillSell;
  }

  /** An order has at most one rival, and is its rival's. */
  lemma RivalIsUnique(b: Book, c: Candle, i: nat, j: nat, k: nat)
    requires WellFormed(b) && i < |b.orders| && j < |b.orders| && k < |b.orders|
    requires InGroup(b.orders[j], b.orders[i]) && InGroup(b.orders[k], b.orders[i])
    ensures j == k && InGroup(b.orders[i], b.orders[j]) && i != j
  {
    SiblingIsTheGroup(b.orders, b.counter, i, j);
    SiblingIsTheGroup(b.orders, b.counter, i, k);
  }

  /** Group membership does not change as orders evolve. */
  lemma SameGroups(a: seq<Order>, r: seq<Order>, i: nat, j: nat)
    requires Evolves(a, r) && i < |a| && j < |a|
    ensures InGroup(r[j], r[i]) <==> InGroup(a[j], a[i])
  {
  }

  lemma SameMeets(a: seq<Order>, r: seq<Order>, i: nat, c: Candle)
    requires Evolves(a, r) && i < |a|
    ensures Meets(r[i], c) == Meets(a[i], c) && r[i].pair == a[i].pair && r[i].side == a[i].side
  {
  }

  lemma NoOutcomeYet(orders: seq<Order>, c: Candle)
    ensures Seen(orders, orders, c, 0)
  {
  }

  lemma RivalledNext(orders: seq<Order>, c: Candle, i: nat, n: nat)
    requires i < |orders| && n < |orders|
    ensures Rivalled(orders, c, i, n + 1) <==> Rivalled(orders, c, i, n) || Rival(orders, c, i, n)
  {
    hide Rival;
  }

  /** Where the only other order of i's group is at j, that is the only possible rival. */
  lemma OnlyRival(b: Book, c: Candle, i: nat, j: nat, n: nat)
    requires WellFormed(b) && i < |b.orders| && j < |b.orders| && n <= |b.orders|
    requires InGroup(b.orders[j], b.orders[i])
    ensures i != j && (Rivalled(b.orders, c, i, n) <==> j < n && Rival(b.orders, c, i, j))
  {
    RivalIsUnique(b, c, i, j, j);
    forall k: nat | k < |b.orders| && Rival(b.orders, c, i, k) ensures k == j { RivalIsUnique(b, c, i, j, k); }
    hide WellFormed, Meets;
  }

  lemma OffersItself(b: Book, m: Book, c: Candle, n: nat)
    requires WellFormed(b) && WellFormed(m) && n < |b.orders| && Seen(b.orders, m.orders, c, n)
    ensures Match(m, n, c).orders[n].status == Outcome(b.orders, c, n, n + 1)
  {
    MatchOutcome(m, n, c);
    SameMeets(b.orders, m.orders, n, c);
    RivalledNext(b.orders, c, n, n);
    hide WellFormed, Match, Meets, Evolves, Rivalled;
  }

  lemma OffersOthers(b: Book, m: Book, c: Candle, n: nat, k: nat)
    requires WellFormed(b) && WellFormed(m) && n < |b.orders| && k < |b.orders| && k != n
    requires Seen(b.orders, m.orders, c, n)
    ensures k < |Match(m, n, c).orders| && Match(m, n, c).orders[k].status == Outcome(b.orders, c, k, n + 1)
  {
    MatchOutcome(m, n, c);
    SameMeets(b.orders, m.orders, n, c);
    SameMeets(b.orders, m.orders, k, c);
    SameGroups(b.orders, m.orders, k, n);
    SameGroups(b.orders, m.orders, n, k);
    RivalledNext(b.orders, c, k, n);
    if InGroup(b.orders[k], b.orders[n]) { RivalIsUnique(b, c, n, k, k); }
    if InGroup(b.orders[n], b.orders[k]) {
      RivalIsUnique(b, c, k, n, n);
      OffersTheGroup(b, m, c, n, k);
    }
    hide WellFormed, Match, Meets, Evolves, Rivalled, InGroup;
  }

  lemma OffersTheGroup(b: Book, m: Book, c: Candle, n: nat, k: nat)
    requires WellFormed(b) && WellFormed(m) && n < |b.orders| && k < |b.orders| && k != n
    requires Seen(b.orders, m.orders, c, n)
    requires InGroup(b.orders[n], b.orders[k]) && InGroup(b.orders[k], b.orders[n])
    ensures k < |Match(m, n, c).orders| && Match(m, n, c).orders[k].status == Outcome(b.orders, c, k, n + 1)
  {
    MatchOutcome(m, n, c);
    SameMeets(b.orders, m.orders, n, c);
    SameMeets(b.orders, m.orders, k, c);
    SameGroups(b.orders, m.orders, n, k);
    OnlyRival(b, c, k, n, n);
    OnlyRival(b, c, k, n, n + 1);
    OnlyRival(b, c, n, k, n);
    OnlyRival(b, c, k, n, if k < n then k else n);
    assert GroupAllows(b.orders[k], b.orders[n]) && b.orders[k].status in {New, Filled, Canceled};
    hide WellFormed, Match, Meets, Evolves, Rivalled, InGroup;
  }

  lemma NextSeen(b: Book, m: Book, c: Candle, n: nat)
    requires WellFormed(b) && WellFormed(m) && n < |b.orders| && Seen(b.orders, m.orders, c, n)
    ensures WellFormed(Match(m, n, c)) && Seen(b.orders, Match(m, n, c).orders, c, n + 1)
  {
    MatchExtendsRun(b, m, n, c);
    ChangesAreTimed(m, n, c);
    hide WellFormed, Match, Outcome, Evolves;
    forall k | 0 <= k < |b.orders| ensures Match(m, n, c).orders[k].status == Outcome(b.orders, c, k, n + 1) {
      if k == n { OffersItself(b, m, c, n); } else { OffersOthers(b, m, c, n, k); }
    }
  }

  lemma ChangesAreTimed(m: Book, n: nat, c: Candle)
    requires WellFormed(m) && n < |m.orders|
    ensures var r := Match(m, n, c).orders;
      forall k :: 0 <= k < |r| ==> r[k] == m.orders[k] || r[k].updatedAt == c.time
  {
    MatchOutcome(m, n, c);
    hide WellFormed, Match, Meets;
  }

  lemma {:induction false} ScanOutcome(b: Book, c: Candle, n: nat)
    requires WellFormed(b) && n <= |b.orders|
    ensures WellFormed(Scan(b, c, n)) && Seen(b.orders, Scan(b, c, n).orders, c, n)
  {
    hide WellFormed, Match, Seen;
    if n == 0 {
      NoOutcomeYet(b.orders, c);
    } else {
      ScanOutcome(b, c, n - 1);
      NextSeen(b, Scan(b, c, n - 1), c, n - 1);
    }
  }

  lemma TickOutcome(b: Book, c: Candle)
    requires WellFormed(b)
    ensures WellFormed(Tick(b, c)) && Seen(b.orders, Tick(b, c).orders, c, |b.orders|)
  {
    var t := b.(last := b.last[c.pair := c]);
    assert WellFormed(t);
    hide WellFormed, Seen;
    ScanOutcome(t, c, |b.orders|);
  }

  /** A pending order is filled exactly if the candle is of its pair and reaches it, and reaches no leg of its group
      that was created earlier; it is cancelled exactly if another leg of its group is filled; so one that stays
      pending was not reached. All changed orders carry the candle's time. */
  lemma CandleFillsWhatItReaches(b: Book, c: Candle, i: nat)
    requires WellFormed(b) && i < |b.orders| && b.orders[i].status == New
    ensures var o, r := b.orders[i], Tick(b, c).orders[i];
      var reached := o.pair == c.pair && Meets(o, c);
      && r == o.(status := r.status, updatedAt := r.updatedAt)
      && (r.status == Filled <==> reached && !Rivalled(b.orders, c, i, i))
      && (r.status == Canceled <==> Rivalled(b.orders, c, i, i) || (!reached && Rivalled(b.orders, c, i, |b.orders|)))
      && (r.status == New <==> !reached && !Rivalled(b.orders, c, i, |b.orders|))
      && (r.status != New ==> r.updatedAt == c.time)
  {
    TickOutcome(b, c);
    assert Rivalled(b.orders, c, i, i) ==> Rivalled(b.orders, c, i, |b.orders|);
    hide WellFormed, Tick, Meets;
  }

  // ----- what the fills pay -----

  lemma BuyPays(b: Book, i: nat, c: Candle, coin: string)
    requires i < |b.orders| && b.orders[i].status == New && b.orders[i].side == Buy
    requires b.orders[i].pair.asset != b.orders[i].pair.quote
    ensures Pays(b, FillBuy(b, i, c), coin)
  {
    var o := b.orders[i];
    FilledBuyOrders(b, i, c);
    UpdateMoves(coin, b.orders, i, o.(status := Filled, updatedAt := c.time));
    hide Average, Moved;
  }

  /** What the wallet owns of the coin has changed by what the fills have moved. */
  predicate Pays(b: Book, r: Book, coin: string) {
    Free(r, coin) + Lock(r, coin) - (Free(b, coin) + Lock(b, coin)) == Moved(coin, r.orders) - Moved(coin, b.orders)
  }

  lemma SellPays(b: Book, i: nat, c: Candle, coin: string)
    requires WellFormed(b) && i < |b.orders| && b.orders[i].status == New && b.orders[i].side == Sell
    ensures Pays(b, FillSell(b, i, c, FillPrice(b.orders[i])), coin)
  {
    hide WellFormed, FillSell, Sibling, Moved, MovedBy, FillPrice;
    var o := b.orders[i];
    PairOfOrder(b, i);
    SoldBook(b, i, c, FillPrice(o));
    SaleMoves(b, i, c, FillPrice(o), coin);
    SoldMoves(o, c, coin);
  }

  lemma PairOfOrder(b: Book, i: nat)
    requires WellFormed(b) && i < |b.orders|
    ensures b.orders[i].pair.asset != b.orders[i].pair.quote
  {
    assert Backed(b.assets, b.orders[i]);
  }

  /** A sale moves what its own order moves: the cancelled leg moves nothing. */
  lemma SaleMoves(b: Book, i: nat, c: Candle, price: real, coin: string)
    requires WellFormed(b) && i < |b.orders| && b.orders[i].status == New && b.orders[i].side == Sell
    ensures Moved(coin, FillSell(b, i, c, price).orders)
         == Moved(coin, b.orders) - MovedBy(coin, b.orders[i])
            + MovedBy(coin, b.orders[i].(status := Filled, updatedAt := c.time))
  {
    hide FillSell, Sibling, Moved, MovedBy, Identified;
    var o, s := b.orders[i], Sibling(b.orders, b.orders[i], 0);
    SoldBook(b, i, c, price);
    var mid := if s.None? then b.orders
               else b.orders[s.value := b.orders[s.value].(status := Canceled, updatedAt := c.time)];
    if s.Some? {
      assert GroupAllows(b.orders[s.value], o) && Sane(b.orders[s.value]);
      UpdateMoves(coin, b.orders, s.value, mid[s.value]);
      CancelledMovesNothing(b.orders[s.value], c, coin);
    }
    UpdateMoves(coin, mid, i, o.(status := Filled, updatedAt := c.time));
  }

  lemma CancelledMovesNothing(o: Order, c: Candle, coin: string)
    requires o.status != Filled
    ensures MovedBy(coin, o) == MovedBy(coin, o.(status := Canceled, updatedAt := c.time)) == 0.0
  {
  }

  lemma SoldMoves(o: Order, c: Candle, coin: string)
    requires o.status == New && o.side == Sell
    ensures MovedBy(coin, o) == 0.0
    ensures MovedBy(coin, o.(status := Filled, updatedAt := c.time))
         == (if coin == o.pair.asset then -o.quantity else 0.0)
            + (if coin == o.pair.quote then Worth(o.quantity, FillPrice(o)) else 0.0)
  {
    assert Worth(-o.quantity, o.price) == -Worth(o.quantity, o.price);
  }

  lemma MatchPays(b: Book, i: nat, c: Candle, coin: string)
    requires WellFormed(b) && i < |b.orders|
    ensures Pays(b, Match(b, i, c), coin)
  {
    var o := b.orders[i];
    MatchFills(b, i, c);
    assert Backed(b.assets, o);
    hide WellFormed, Match, FillSell, FillBuy, Pays, Meets;
    if o.pair == c.pair && o.status == New && Meets(o, c) {
      if o.side == Buy { BuyPays(b, i, c, coin); } else { SellPays(b, i, c, coin); }
    } else {
      NothingPaid(b, coin);
    }
  }

  lemma NothingPaid(b: Book, coin: string)
    ensures Pays(b, b, coin)
  {
  }

  lemma {:induction false} ScanPays(b: Book, c: Candle, n: nat, coin: string)
    requires WellFormed(b) && n <= |b.orders|
    ensures Pays(b, Scan(b, c, n), coin)
  {
    hide WellFormed, Match, Moved;
    if n > 0 {
      ScanPays(b, c, n - 1, coin);
      ScanKeepsShape(b, c, n - 1);
      MatchPays(Scan(b, c, n - 1), n - 1, c, coin);
    }
  }

  /** Whatever is traded, a candle moves of each coin just what the orders it fills are worth: a buy and a limit sell
      at their limit, a stop sell at its stop. */
  lemma CandlePaysItsFills(b: Book, c: Candle, coin: string)
    requires WellFormed(b)
    ensures var r := Tick(b, c);
      Free(r, coin) + Lock(r, coin) - (Free(b, coin) + Lock(b, coin))
      == Sum(Flow(coin), r.orders) + Sum(Slip(coin), r.orders)
         - (Sum(Flow(coin), b.orders) + Sum(Slip(coin), b.orders))
  {
    var t := b.(last := b.last[c.pair := c]);
    assert WellFormed(t);
    hide WellFormed, Scan;
    ScanPays(t, c, |t.orders|, coin);
  }

  // ----- the long average after pending buys -----

  /** What the free amount cost at the average price has grown by what the filled buys have spent. */
  predicate Blended(b: Book, r: Book, p: Pair) {
    && Free(r, p.asset) >= Free(b, p.asset)
    && Worth(Free(r, p.asset), Lookup(r.avgLong, p)) - Worth(Free(b, p.asset), Lookup(b.avgLong, p))
       == Sum(Spent(p), r.orders) - Sum(Spent(p), b.orders)
  }

  lemma BuyBlends(b: Book, i: nat, c: Candle)
    requires i < |b.orders| && b.orders[i].status == New && b.orders[i].side == Buy && Sane(b.orders[i])
    requires b.orders[i].pair.asset != b.orders[i].pair.quote && Free(b, b.orders[i].pair.asset) >= 0.0
    ensures Blended(b, FillBuy(b, i, c), b.orders[i].pair)
  {
    var o := b.orders[i];
    var held, avg := Free(b, o.pair.asset), Lookup(b.avgLong, o.pair);
    FilledBuyOrders(b, i, c);
    SumUpdate(Spent(o.pair), b.orders, i, o.(status := Filled, updatedAt := c.time));
    BlendKeepsCost(held, avg, o.quantity, o.price);
    BoughtPosition(b, i, c);
    hide Blend, Worth, FillBuy;
  }

  lemma BoughtPosition(b: Book, i: nat, c: Candle)
    requires i < |b.orders| && b.orders[i].side == Buy && b.orders[i].pair.asset != b.orders[i].pair.quote
    requires Free(b, b.orders[i].pair.asset) >= 0.0
    ensures var o, r := b.orders[i], FillBuy(b, i, c);
      && Free(r, o.pair.asset) == Free(b, o.pair.asset) + o.quantity
      && Lookup(r.avgLong, o.pair) == Blend(Free(b, o.pair.asset), Lookup(b.avgLong, o.pair), o.quantity, o.price)
  {
    hide Blend, Worth;
  }

  lemma SellBlendsNothing(b: Book, i: nat, c: Candle, price: real)
    requires WellFormed(b) && i < |b.orders| && b.orders[i].status == New && b.orders[i].side == Sell
    ensures Blended(b, FillSell(b, i, c, price), b.orders[i].pair)
  {
    var o, r := b.orders[i], FillSell(b, i, c, price);
    assert Backed(b.assets, o);
    FillSellOrders(b, i, c, price);
    assert r.avgLong == b.avgLong && Free(r, o.pair.asset) == Free(b, o.pair.asset) by { SoldPosition(b, i, c, price); }
    hide WellFormed, FillSell, Evolves;
    SumAgrees(Spent(o.pair), r.orders, b.orders);
  }

  lemma SoldPosition(b: Book, i: nat, c: Candle, price: real)
    requires i < |b.orders| && b.orders[i].pair.asset != b.orders[i].pair.quote
    ensures var o, r := b.orders[i], FillSell(b, i, c, price);
      && r.avgLong == b.avgLong && Free(r, o.pair.asset) == Free(b, o.pair.asset)
  {
    hide Worth, Blend, Sibling;
  }

  lemma MatchBlends(b: Book, i: nat, c: Candle)
    requires WellFormed(b) && i < |b.orders| && Free(b, c.pair.asset) >= 0.0
    ensures Blended(b, Match(b, i, c), c.pair)
  {
    var o := b.orders[i];
    MatchFills(b, i, c);
    assert Backed(b.assets, o) && Sane(o);
    hide WellFormed, Match, FillSell, FillBuy, Blended, Meets;
    if o.pair == c.pair && o.status == New && Meets(o, c) {
      if o.side == Buy { BuyBlends(b, i, c); } else { SellBlendsNothing(b, i, c, FillPrice(o)); }
    } else {
      NothingBlended(b, c.pair);
    }
  }

  lemma NothingBlended(b: Book, p: Pair)
    ensures Blended(b, b, p)
  {
  }

  lemma {:induction false} ScanBlends(b: Book, c: Candle, n: nat)
    requires WellFormed(b) && n <= |b.orders| && Free(b, c.pair.asset) >= 0.0
    ensures Blended(b, Scan(b, c, n), c.pair)
  {
    hide WellFormed, Match, Worth, Sum;
    if n > 0 {
      ScanBlends(b, c, n - 1);
      ScanKeepsShape(b, c, n - 1);
      MatchBlends(Scan(b, c, n - 1), n - 1, c);
    }
  }

  /** The pending buys that a candle fills enter the long average at their limit price: what the free amount cost at
      the average grows by just what they spend, while sells leave it alone. */
  lemma CandleBlendsItsBuys(b: Book, c: Candle)
    requires WellFormed(b) && Free(b, c.pair.asset) >= 0.0
    ensures Blended(b, Tick(b, c), c.pair)
  {
    var t := b.(last := b.last[c.pair := c]);
    assert WellFormed(t);
    hide WellFormed, Scan;
    ScanBlends(t, c, |t.orders|);
  }

  /** A sell that exceeds the free amount moves the short average as if the excess were sold short: it is the sale
      price on a flat or long amount, and the blend of the two on a short one. The long average stays. */
  lemma SaleMovesShortAverage(b: Book, i: nat, c: Candle, price: real)
    requires i < |b.orders| && b.orders[i].side == Sell && b.orders[i].quantity > 0.0
    ensures var o, r, f := b.orders[i], FillSell(b, i, c, price), Free(b, b.orders[i].pair.asset);
      var before, after := Lookup(b.avgShort, o.pair), Lookup(r.avgShort, o.pair);
      && r.avgLong == b.avgLong
      && (f >= o.quantity ==> after == before)
      && (0.0 <= f < o.quantity ==> after == price)
      && (f < 0.0 ==> Worth(o.quantity - f, after) == Worth(-f, before) + Worth(o.quantity, price))
  {
    var o, f := b.orders[i], Free(b, b.orders[i].pair.asset);
    if f < 0.0 { BlendKeepsCost(-f, Lookup(b.avgShort, o.pair), o.quantity, price); }
    SoldAverages(b, i, c, price);
    hide Worth, FillSell;
  }

  lemma SoldAverages(b: Book, i: nat, c: Candle, price: real)
    requires i < |b.orders|
    ensures var o, r := b.orders[i], FillSell(b, i, c, price);
      r.avgLong == b.avgLong && r.avgShort == Average(b, Sell, o.pair, o.quantity, price).avgShort
  {
    var o := b.orders[i];
    var alone := WithStatus(CancelSibling(b, o, c.time), i, Filled, c.time);
    SameAverages(alone, b, o.pair, o.quantity, price);
    var sold := Average(alone, Sell, o.pair, o.quantity, price);
    CreditKeepsAverages(sold, o.pair.asset, 0.0, -o.quantity);
    CreditKeepsAverages(Credit(sold, o.pair.asset, 0.0, -o.quantity), o.pair.quote, Worth(o.quantity, price), 0.0);
    hide Worth, Sibling, Average, Credit;
  }

  lemma CreditKeepsAverages(b: Book, a: string, free: real, lock: real)
    ensures var r := Credit(b, a, free, lock); r.avgShort == b.avgShort && r.avgLong == b.avgLong
  {
  }

  lemma SameAverages(a: Book, b: Book, pair: Pair, amount: real, value: real)
    requires a.assets == b.assets && a.avgShort == b.avgShort && a.avgLong == b.avgLong
    ensures Average(a, Sell, pair, amount, value).avgShort == Average(b, Sell, pair, amount, value).avgShort
    ensures Average(a, Sell, pair, amount, value).avgLong == b.avgLong
  {
    hide Blend;
  }
}
