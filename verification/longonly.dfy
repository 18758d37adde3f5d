/** Long-only trading: no sell is larger than the free asset. The books then balance in every
    reachable state: what is locked is what the pending orders need, and what is owned is what the
    fills paid out. */
module LongOnly {
  import opened Types
  import opened Ledger
  import opened WalletSpec
  import opened WalletShape

  datatype Command =
    | LimitOrder(side: Side, pair: Pair, size: real, price: real)
    | StopOrder(pair: Pair, size: real, price: real)
    | OcoOrder(pair: Pair, size: real, price: real, stop: real, stopLimit: real)
    | MarketOrder(side: Side, pair: Pair, size: real)
    | Withdraw(index: nat)
    | NewCandle(candle: Candle)

  /** The commands a long-only caller gives. */
  predicate Allowed(b: Book, cmd: Command) {
    match cmd
    case LimitOrder(side, p, size, price) =>
      size >= 0.0 && price > 0.0 && p.asset != p.quote && (side == Sell ==> size <= Free(b, p.asset))
    case StopOrder(p, size, price) =>
      size >= 0.0 && price > 0.0 && p.asset != p.quote && size <= Free(b, p.asset)
    case OcoOrder(p, size, price, stop, stopLimit) =>
      size >= 0.0 && price > 0.0 && stop > 0.0 && stopLimit > 0.0 && p.asset != p.quote && size <= Free(b, p.asset)
    case MarketOrder(side, p, size) =>
      size >= 0.0 && Close(b, p) > 0.0 && p.asset != p.quote && (side == Sell ==> size <= Free(b, p.asset))
    case Withdraw(i) => i < |b.orders| && Withdrawable(b, i) && Refunds(b, i)
    case NewCandle(c) => true
  }

  /** Pending, and not one leg of a group. */
  predicate Withdrawable(b: Book, i: nat)
    requires i < |b.orders|
  {
    b.orders[i].status == New && b.orders[i].group.None?
  }

  /** A sell, or a buy while none of its asset is locked. */
  predicate Refunds(b: Book, i: nat)
    requires i < |b.orders|
  {
    b.orders[i].side == Sell || Lock(b, b.orders[i].pair.asset) == 0.0
  }

  function Step(b: Book, cmd: Command): Book {
    match cmd
    case LimitOrder(side, p, size, price) => PlaceLimit(b, side, p, size, price)
    case StopOrder(p, size, price) => PlaceStop(b, p, size, price)
    case OcoOrder(p, size, price, stop, stopLimit) => PlaceOco(b, Sell, p, size, price, stop, stopLimit)
    case MarketOrder(side, p, size) => PlaceMarket(b, side, p, size)
    case Withdraw(i) => if i < |b.orders| then CancelOrder(b, i) else b
    case NewCandle(c) => Tick(b, c)
  }

  predicate Legal(b: Book, cmds: seq<Command>)
    decreases |cmds|
  {
    cmds == [] || (Allowed(b, cmds[0]) && Legal(Step(b, cmds[0]), cmds[1..]))
  }

  function Run(b: Book, cmds: seq<Command>): Book
    requires Legal(b, cmds)
    decreases |cmds|
  {
    if cmds == [] then b else Run(Step(b, cmds[0]), cmds[1..])
  }

  // ----- the invariant -----

  predicate Plain(o: Order) {
    && Sane(o) && o.price > 0.0 && o.pair.asset != o.pair.quote
    && (o.stop.Some? ==> o.stop.value > 0.0)
    && match o.typ
       case Market => o.group.None? && o.status != New
       case Limit => o.group.None?
       case StopLossLimit => o.group.None? && o.side == Sell && o.stop == Some(o.price)
       case LimitMaker => o.side == Sell && o.group == Some(o.exchangeId - 1)
       case StopLoss => o.side == Sell && o.group == Some(o.exchangeId - 2) && o.stop.Some?
       case _ => false
  }

  /** The two legs of a group: both pending, or one filled and the other cancelled. */
  predicate Legs(maker: Order, stop: Order) {
    && maker.typ == LimitMaker && stop.typ == StopLoss
    && maker.group == stop.group && maker.pair == stop.pair && maker.quantity == stop.quantity
    && ((maker.status == New && stop.status == New)
        || (maker.status == Filled && stop.status == Canceled)
        || (maker.status == Canceled && stop.status == Filled))
  }

  predicate Grouped(orders: seq<Order>) {
    && (forall i :: 0 <= i < |orders| && orders[i].typ == LimitMaker ==>
          i + 1 < |orders| && Legs(orders[i], orders[i + 1]))
    && (forall i :: 0 <= i < |orders| && orders[i].typ == StopLoss ==>
          0 < i && Legs(orders[i - 1], orders[i]))
  }

  function Locked(coin: string, orders: seq<Order>): real {
    Sum(LockedAsset(coin), orders) + Sum(LockedQuote(coin), orders)
  }

  function LockedBy(coin: string, o: Order): real {
    Weight(LockedAsset(coin), o) + Weight(LockedQuote(coin), o)
  }

  function Moved(coin: string, orders: seq<Order>): real { Sum(Flow(coin), orders) + Sum(Slip(coin), orders) }

  function MovedBy(coin: string, o: Order): real { Weight(Flow(coin), o) + Weight(Slip(coin), o) }

  /** One coin's books: the lock is what pending orders need, and free plus locked is the initial
      amount plus what the fills moved. */
  predicate Balanced(b: Book, initial: map<string, real>, coin: string) {
    && Free(b, coin) >= 0.0
    && Lock(b, coin) == Locked(coin, b.orders)
    && Free(b, coin) + Lock(b, coin) == Lookup(initial, coin) + Moved(coin, b.orders)
  }

  ghost predicate Sound(b: Book, initial: map<string, real>) {
    && WellFormed(b)
    && (forall i :: 0 <= i < |b.orders| ==> Plain(b.orders[i]))
    && Grouped(b.orders)
    && forall coin :: Balanced(b, initial, coin)
  }

  // ----- changing one order changes each coin by that order -----

  lemma AppendMoves(coin: string, orders: seq<Order>, o: Order)
    ensures Locked(coin, orders + [o]) == Locked(coin, orders) + LockedBy(coin, o)
    ensures Moved(coin, orders + [o]) == Moved(coin, orders) + MovedBy(coin, o)
  {
    SumAppend(LockedAsset(coin), orders, o);
    SumAppend(LockedQuote(coin), orders, o);
    SumAppend(Flow(coin), orders, o);
    SumAppend(Slip(coin), orders, o);
  }

  lemma UpdateMoves(coin: string, orders: seq<Order>, i: nat, o: Order)
    requires i < |orders|
    ensures Locked(coin, orders[i := o]) == Locked(coin, orders) - LockedBy(coin, orders[i]) + LockedBy(coin, o)
    ensures Moved(coin, orders[i := o]) == Moved(coin, orders) - MovedBy(coin, orders[i]) + MovedBy(coin, o)
  {
    SumUpdate(LockedAsset(coin), orders, i, o);
    SumUpdate(LockedQuote(coin), orders, i, o);
    SumUpdate(Flow(coin), orders, i, o);
    SumUpdate(Slip(coin), orders, i, o);
  }

  /** Every lock is covered by pending orders, so it is never negative. */
  lemma LocksAreNonNegative(b: Book, coin: string)
    requires forall i :: 0 <= i < |b.orders| ==> Plain(b.orders[i])
    ensures Locked(coin, b.orders) >= 0.0
    ensures forall i :: 0 <= i < |b.orders| ==> LockedBy(coin, b.orders[i]) <= Locked(coin, b.orders)
  {
    forall m: Measure, i | 0 <= i < |b.orders| && (m == LockedAsset(coin) || m == LockedQuote(coin))
      ensures Weight(m, b.orders[i]) >= 0.0
    {
      assert Plain(b.orders[i]);
      PositiveWorth(b.orders[i].quantity, b.orders[i].price);
    }
    SumNonNegative(LockedAsset(coin), b.orders);
    SumNonNegative(LockedQuote(coin), b.orders);
  }

  // ----- matching -----

  /** A coin stays balanced when its lock and its total follow the changed order. */
  lemma OrderTurns(b: Book, r: Book, initial: map<string, real>, coin: string, i: nat, o: Order)
    requires Balanced(b, initial, coin) && i < |b.orders| && r.orders == b.orders[i := o]
    requires Free(r, coin) >= 0.0
    requires Lock(r, coin) == Lock(b, coin) - LockedBy(coin, b.orders[i]) + LockedBy(coin, o)
    requires Free(r, coin) + Lock(r, coin)
          == Free(b, coin) + Lock(b, coin) - MovedBy(coin, b.orders[i]) + MovedBy(coin, o)
    ensures Balanced(r, initial, coin)
  {
    UpdateMoves(coin, b.orders, i, o);
  }

  lemma FillBuyBalances(b: Book, initial: map<string, real>, i: nat, c: Candle, coin: string)
    requires i < |b.orders| && Plain(b.orders[i]) && b.orders[i].status == New && b.orders[i].side == Buy
    requires Balanced(b, initial, coin)
    ensures Balanced(FillBuy(b, i, c), initial, coin)
  {
    var o, r := b.orders[i], FillBuy(b, i, c);
    hide Average;
    OrderTurns(b, r, initial, coin, i, o.(status := Filled, updatedAt := c.time));
  }

  lemma FillAloneBalances(b: Book, r: Book, initial: map<string, real>, i: nat, c: Candle, price: real, coin: string)
    requires i < |b.orders| && Plain(b.orders[i]) && b.orders[i].status == New && b.orders[i].side == Sell
    requires Trigger(b.orders[i], c) == Some(price) && Balanced(b, initial, coin)
    requires r.orders == b.orders[i := b.orders[i].(status := Filled, updatedAt := c.time)]
    requires b.orders[i].typ != StopLoss
    requires var o := b.orders[i];
      r.assets == Credit(Credit(b, o.pair.asset, 0.0, -o.quantity),
                         o.pair.quote, Worth(o.quantity, price), 0.0).assets
    ensures Balanced(r, initial, coin)
  {
    var o := b.orders[i];
    PositiveWorth(o.quantity, price);
    PositiveWorth(o.quantity, o.price);
    OrderTurns(b, r, initial, coin, i, o.(status := Filled, updatedAt := c.time));
  }

  /** The other leg of a pending group order. */
  lemma OtherLeg(b: Book, i: nat) returns (j: nat)
    requires WellFormed(b) && Grouped(b.orders) && forall k :: 0 <= k < |b.orders| ==> Plain(b.orders[k])
    requires i < |b.orders| && b.orders[i].group.Some? && b.orders[i].status == New
    ensures j < |b.orders| && j != i && b.orders[j].status == New
    ensures if b.orders[i].typ == LimitMaker then j == i + 1 && Legs(b.orders[i], b.orders[j])
            else j == i - 1 && Legs(b.orders[j], b.orders[i])
    ensures Sibling(b.orders, b.orders[i], 0) == Some(j)
  {
    assert Plain(b.orders[i]);
    j := if b.orders[i].typ == LimitMaker then i + 1 else i - 1;
    assert Plain(b.orders[j]);
    SiblingIsTheGroup(b.orders, b.counter, i, j);
  }

  lemma FillLegBalances(
    b: Book, r: Book, initial: map<string, real>, i: nat, j: nat, c: Candle, price: real, coin: string)
    requires i < |b.orders| && j < |b.orders| && i != j && Plain(b.orders[i]) && Plain(b.orders[j])
    requires b.orders[i].status == New && b.orders[j].status == New
    requires Legs(b.orders[i], b.orders[j]) || Legs(b.orders[j], b.orders[i])
    requires Trigger(b.orders[i], c) == Some(price) && Balanced(b, initial, coin)
    requires r.orders == b.orders[j := b.orders[j].(status := Canceled, updatedAt := c.time)]
                                 [i := b.orders[i].(status := Filled, updatedAt := c.time)]
    requires var o := b.orders[i];
      r.assets == Credit(Credit(b, o.pair.asset, 0.0, -o.quantity),
                         o.pair.quote, Worth(o.quantity, price), 0.0).assets
    ensures Balanced(r, initial, coin)
  {
    var o, s := b.orders[i], b.orders[j];
    var mid := b.orders[j := s.(status := Canceled, updatedAt := c.time)];
    UpdateMoves(coin, b.orders, j, mid[j]);
    UpdateMoves(coin, mid, i, r.orders[i]);
    LegWeights(coin, o, s);
    SoldWeights(coin, o, c, price);
    PositiveWorth(o.quantity, price);
    hide LockedBy, MovedBy, Locked, Moved;
  }

  /** Between them the two pending legs lock the quantity once; an order that is neither pending nor
      filled weighs nothing. */
  lemma LegWeights(coin: string, o: Order, s: Order)
    requires Legs(o, s) || Legs(s, o)
    requires o.status == New && s.status == New && o.side == Sell && s.side == Sell
    ensures LockedBy(coin, o) + LockedBy(coin, s) == if coin == o.pair.asset then o.quantity else 0.0
    ensures MovedBy(coin, o) == MovedBy(coin, s) == 0.0
    ensures forall time :: LockedBy(coin, s.(status := Canceled, updatedAt := time)) == 0.0
    ensures forall time :: MovedBy(coin, s.(status := Canceled, updatedAt := time)) == 0.0
  {
  }

  /** A filled sell has moved its quantity out and what it was executed at in. */
  lemma SoldWeights(coin: string, o: Order, c: Candle, price: real)
    requires Plain(o) && o.side == Sell && Trigger(o, c) == Some(price)
    ensures var f := o.(status := Filled, updatedAt := c.time);
      && LockedBy(coin, f) == 0.0
      && MovedBy(coin, f) == (if coin == o.pair.asset then -o.quantity else 0.0)
                           + (if coin == o.pair.quote then Worth(o.quantity, price) else 0.0)
  {
    PositiveWorth(o.quantity, o.price);
  }

  lemma EvolvingStaysPlain(a: seq<Order>, b: seq<Order>)
    requires Evolves(a, b) && forall k :: 0 <= k < |a| ==> Plain(a[k]) && Sane(b[k])
    ensures forall k :: 0 <= k < |b| ==> Plain(b[k])
  {
    forall k | 0 <= k < |b| ensures Plain(b[k]) {
      assert Plain(a[k]);
    }
  }

  /** Changing an order outside any group leaves the groups as they are. */
  lemma UngroupedStaysGrouped(a: seq<Order>, i: nat, o: Order)
    requires Grouped(a) && i < |a| && a[i].typ !in {LimitMaker, StopLoss} && o.typ == a[i].typ
    ensures Grouped(a[i := o])
  {
  }

  lemma LegsStayGrouped(a: seq<Order>, i: nat, j: nat, time: int)
    requires Grouped(a) && i < |a| && j < |a|
    requires if a[i].typ == LimitMaker then j == i + 1 && Legs(a[i], a[j]) else j == i - 1 && Legs(a[j], a[i])
    ensures Grouped(a[j := a[j].(status := Canceled, updatedAt := time)]
                     [i := a[i].(status := Filled, updatedAt := time)])
  {
  }

  lemma FillSellBalances(b: Book, initial: map<string, real>, i: nat, c: Candle, price: real)
    requires Sound(b, initial) && i < |b.orders| && b.orders[i].status == New && b.orders[i].side == Sell
    requires Trigger(b.orders[i], c) == Some(price)
    ensures var r := FillSell(b, i, c, price);
      Grouped(r.orders) && forall coin :: Balanced(r, initial, coin)
  {
    hide WellFormed, Balanced, FillSell, Trigger, Sibling, Legs, Plain, Grouped;
    var o, r := b.orders[i], FillSell(b, i, c, price);
    SoldBook(b, i, c, price);
    assert Plain(o);
    TypeTellsGroup(o);
    if o.group.None? {
      NoSibling(b.orders, o);
      UngroupedStaysGrouped(b.orders, i, o.(status := Filled, updatedAt := c.time));
      forall coin ensures Balanced(r, initial, coin) { FillAloneBalances(b, r, initial, i, c, price, coin); }
    } else {
      var j := OtherLeg(b, i);
      LegsStayGrouped(b.orders, i, j, c.time);
      assert Plain(b.orders[j]);
      forall coin ensures Balanced(r, initial, coin) { FillLegBalances(b, r, initial, i, j, c, price, coin); }
    }
  }

  lemma TypeTellsGroup(o: Order)
    requires Plain(o)
    ensures o.group.None? <==> o.typ !in {LimitMaker, StopLoss}
  {
  }

  lemma MatchKeepsSound(b: Book, initial: map<string, real>, i: nat, c: Candle)
    requires Sound(b, initial) && i < |b.orders|
    ensures Sound(Match(b, i, c), initial)
  {
    var o, r := b.orders[i], Match(b, i, c);
    assert Plain(o);
    MatchKeepsShape(b, i, c);
    hide WellFormed, FillBuy, FillSell;
    assert forall k :: 0 <= k < |r.orders| ==> Sane(r.orders[k]) by { SaneOrders(r); }
    EvolvingStaysPlain(b.orders, r.orders);
    if o.pair == c.pair && o.status == New {
      if o.side == Buy {
        if o.price >= c.close {
          FilledBuyOrders(b, i, c);
          UngroupedStaysGrouped(b.orders, i, r.orders[i]);
          forall coin ensures Balanced(r, initial, coin) { FillBuyBalances(b, initial, i, c, coin); }
        }
      } else if Trigger(o, c).Some? {
        FillSellBalances(b, initial, i, c, Trigger(o, c).value);
      }
    }
  }

  lemma SaneOrders(b: Book)
    requires WellFormed(b)
    ensures forall k :: 0 <= k < |b.orders| ==> Sane(b.orders[k])
  {
  }

  lemma FilledBuyOrders(b: Book, i: nat, c: Candle)
    requires i < |b.orders|
    ensures FillBuy(b, i, c).orders == b.orders[i := b.orders[i].(status := Filled, updatedAt := c.time)]
  {
  }

  lemma {:induction false} ScanKeepsSound(b: Book, initial: map<string, real>, c: Candle, n: nat)
    requires Sound(b, initial) && n <= |b.orders|
    ensures Sound(Scan(b, c, n), initial)
  {
    hide Sound, Match;
    if n > 0 {
      ScanKeepsSound(b, initial, c, n - 1);
      MatchKeepsSound(Scan(b, c, n - 1), initial, n - 1, c);
    }
  }

  lemma TickKeepsSound(b: Book, initial: map<string, real>, c: Candle)
    requires Sound(b, initial)
    ensures Sound(Tick(b, c), initial)
  {
    var t := b.(last := b.last[c.pair := c]);
    forall coin ensures Balanced(t, initial, coin) { assert Balanced(b, initial, coin); }
    ScanKeepsSound(t, initial, c, |t.orders|);
  }

  // ----- placing -----

  function FreeChange(side: Side, pair: Pair, size: real, price: real, fill: bool, coin: string): real {
    (if coin != pair.asset then 0.0 else if side == Sell then -size else if fill then size else 0.0)
    + (if coin != pair.quote then 0.0 else if side == Buy then -Worth(size, price)
       else if fill then Worth(size, price) else 0.0)
  }

  function LockChange(side: Side, pair: Pair, size: real, price: real, fill: bool, coin: string): real {
    if fill then 0.0
    else if side == Sell then if coin == pair.asset then size else 0.0
    else if coin == pair.quote then Worth(size, price) else 0.0
  }

  lemma TouchChangesNothing(b: Book, pair: Pair, coin: string)
    ensures Free(Touch(b, pair), coin) == Free(b, coin) && Lock(Touch(b, pair), coin) == Lock(b, coin)
  {
  }

  lemma SellLockIsExact(b: Book, pair: Pair, size: real, price: real, coin: string)
    requires pair.asset != pair.quote && 0.0 < size <= Free(b, pair.asset)
    ensures Free(LockSell(b, pair, size, price), coin)
         == Free(b, coin) + FreeChange(Sell, pair, size, price, false, coin)
    ensures Lock(LockSell(b, pair, size, price), coin)
         == Lock(b, coin) + LockChange(Sell, pair, size, price, false, coin)
  {
    assert Worth(0.0, price) == 0.0;
  }

  lemma SellFillIsExact(b: Book, pair: Pair, size: real, price: real, coin: string)
    requires pair.asset != pair.quote && 0.0 < size <= Free(b, pair.asset)
    ensures Free(FillMarketSell(b, pair, size, price), coin)
         == Free(b, coin) + FreeChange(Sell, pair, size, price, true, coin)
    ensures Lock(FillMarketSell(b, pair, size, price), coin)
         == Lock(b, coin) + LockChange(Sell, pair, size, price, true, coin)
  {
  }

  lemma BuyLockIsExact(b: Book, pair: Pair, size: real, price: real, coin: string)
    requires pair.asset != pair.quote && size > 0.0 && Free(b, pair.asset) >= 0.0
    ensures Free(LockBuy(b, pair, size, price), coin)
         == Free(b, coin) + FreeChange(Buy, pair, size, price, false, coin)
    ensures Lock(LockBuy(b, pair, size, price), coin)
         == Lock(b, coin) + LockChange(Buy, pair, size, price, false, coin)
  {
  }

  lemma BuyFillIsExact(b: Book, pair: Pair, size: real, price: real, coin: string)
    requires pair.asset != pair.quote && size > 0.0 && Free(b, pair.asset) >= 0.0
    ensures Free(FillMarketBuy(b, pair, size, price), coin)
         == Free(b, coin) + FreeChange(Buy, pair, size, price, true, coin)
    ensures Lock(FillMarketBuy(b, pair, size, price), coin)
         == Lock(b, coin) + LockChange(Buy, pair, size, price, true, coin)
  {
  }

  /** Funding a long-only order moves exactly the coins that order is about. */
  lemma FundingIsExact(b: Book, side: Side, pair: Pair, size: real, price: real, fill: bool, coin: string)
    requires size > 0.0 && price > 0.0 && pair.asset != pair.quote
    requires Free(b, pair.asset) >= 0.0 && (side == Sell ==> size <= Free(b, pair.asset))
    ensures var r := Fund(Touch(b, pair), side, pair, size, price, fill);
      && Free(r, coin) == Free(b, coin) + FreeChange(side, pair, size, price, fill, coin)
      && Lock(r, coin) == Lock(b, coin) + LockChange(side, pair, size, price, fill, coin)
  {
    TouchChangesNothing(b, pair, coin);
    TouchChangesNothing(b, pair, pair.asset);
    TouchChangesNothing(b, pair, pair.quote);
    var t := Touch(b, pair);
    hide Touch, LockSell, LockBuy, FillMarketSell, FillMarketBuy;
    if side == Sell {
      if fill { SellFillIsExact(t, pair, size, price, coin); } else { SellLockIsExact(t, pair, size, price, coin); }
    } else {
      if fill { BuyFillIsExact(t, pair, size, price, coin); } else { BuyLockIsExact(t, pair, size, price, coin); }
    }
  }

  lemma FundingStaysFree(b: Book, side: Side, pair: Pair, size: real, price: real, fill: bool, coin: string)
    requires size > 0.0 && price > 0.0 && pair.asset != pair.quote && Free(b, coin) >= 0.0
    requires Free(b, pair.asset) >= 0.0 && (side == Sell ==> size <= Free(b, pair.asset))
    requires Accepts(b, side, pair, size, price)
    ensures Free(b, coin) + FreeChange(side, pair, size, price, fill, coin) >= 0.0
  {
    PositiveWorth(size, price);
  }

  lemma DraftWeighs(o: Order, fill: bool, coin: string)
    requires Plain(o) && o.typ != StopLoss && o.status == if fill then Filled else New
    requires IsStop(o) ==> !fill
    ensures LockedBy(coin, o) == LockChange(o.side, o.pair, o.quantity, o.price, fill, coin)
    ensures MovedBy(coin, o) == if !fill then 0.0 else FreeChange(o.side, o.pair, o.quantity, o.price, fill, coin)
    ensures !fill ==> FreeChange(o.side, o.pair, o.quantity, o.price, fill, coin) == -LockedBy(coin, o)
  {
    PositiveWorth(o.quantity, o.price);
  }

  lemma PlacingBalances(b: Book, r: Book, initial: map<string, real>, o: Order, fill: bool, coin: string)
    requires Balanced(b, initial, coin) && Balanced(b, initial, o.pair.asset)
    requires Plain(o) && o.typ != StopLoss && o.status == (if fill then Filled else New) && (IsStop(o) ==> !fill)
    requires o.side == Sell ==> o.quantity <= Free(b, o.pair.asset)
    requires Accepts(b, o.side, o.pair, o.quantity, o.price)
    requires r.assets == Fund(Touch(b, o.pair), o.side, o.pair, o.quantity, o.price, fill).assets
    requires r.orders == b.orders + [o]
    ensures Balanced(r, initial, coin)
  {
    FundingIsExact(b, o.side, o.pair, o.quantity, o.price, fill, coin);
    FundingStaysFree(b, o.side, o.pair, o.quantity, o.price, fill, coin);
    DraftWeighs(o, fill, coin);
    AppendMoves(coin, b.orders, o);
    hide Fund, LockedBy, MovedBy, FreeChange, LockChange, Locked, Moved;
  }

  /** One accepted order that is no leg of a group. */
  lemma PlacingKeepsSound(b: Book, r: Book, initial: map<string, real>, o: Order, fill: bool)
    requires Sound(b, initial) && Plain(o) && o.group.None? && (IsStop(o) ==> !fill)
    requires o.status == (if fill then Filled else New) && o.exchangeId == r.counter == b.counter + 1
    requires o.side == Sell ==> o.quantity <= Free(b, o.pair.asset)
    requires Accepts(b, o.side, o.pair, o.quantity, o.price)
    requires r.assets == Fund(Touch(b, o.pair), o.side, o.pair, o.quantity, o.price, fill).assets
    requires r.orders == b.orders + [o]
    ensures Sound(r, initial)
  {
    hide WellFormed, Balanced, Plain, Grouped, Fund, Accepts;
    TypeTellsGroup(o);
    forall coin ensures Balanced(r, initial, coin) {
      assert Balanced(b, initial, coin) && Balanced(b, initial, o.pair.asset);
      PlacingBalances(b, r, initial, o, fill, coin);
    }
    AppendUngrouped(b.orders, o);
    ExtendsShape(b, r, o, fill);
  }

  lemma AppendUngrouped(orders: seq<Order>, o: Order)
    requires Grouped(orders) && o.typ !in {LimitMaker, StopLoss}
    ensures Grouped(orders + [o])
  {
  }

  lemma ExtendsShape(b: Book, r: Book, o: Order, fill: bool)
    requires WellFormed(b) && Plain(o) && o.group.None? && o.exchangeId == r.counter == b.counter + 1
    requires r.assets == Fund(Touch(b, o.pair), o.side, o.pair, o.quantity, o.price, fill).assets
    requires r.orders == b.orders + [o]
    ensures WellFormed(r)
  {
    hide WellFormed, Fund;
    AppendKeepsShape(b, r, o);
  }

  lemma TouchKeepsSound(b: Book, initial: map<string, real>, pair: Pair)
    requires Sound(b, initial)
    ensures Sound(Touch(b, pair), initial)
  {
    TouchKeepsShape(b, pair);
    forall coin ensures Balanced(Touch(b, pair), initial, coin) { assert Balanced(b, initial, coin); }
  }

  lemma PairBalances(b: Book, mid: Book, r: Book, initial: map<string, real>, maker: Order, stopper: Order)
    requires forall coin :: Balanced(b, initial, coin)
    requires Plain(maker) && maker.typ == LimitMaker && maker.status == New && maker.side == Sell
    requires maker.quantity <= Free(b, maker.pair.asset)
    requires Accepts(b, Sell, maker.pair, maker.quantity, maker.price)
    requires mid.assets == r.assets
    requires mid.assets == Fund(Touch(b, maker.pair), Sell, maker.pair, maker.quantity, maker.price, false).assets
    requires mid.orders == b.orders + [maker] && r.orders == mid.orders + [stopper]
    requires stopper.typ == StopLoss && stopper.side == Sell && stopper.status == New
    ensures forall coin :: Balanced(r, initial, coin)
  {
    hide Fund, Accepts, Plain;
    forall coin ensures Balanced(r, initial, coin) {
      assert Balanced(b, initial, coin) && Balanced(b, initial, maker.pair.asset);
      PlacingBalances(b, mid, initial, maker, false, coin);
      AppendMoves(coin, mid.orders, stopper);
      hide Locked, Moved;
    }
  }

  lemma PairKeepsShape(b: Book, mid: Book, r: Book, maker: Order, stopper: Order)
    requires WellFormed(b) && b.assets.Keys <= mid.assets.Keys && mid.assets == r.assets
    requires Plain(maker) && Plain(stopper) && Legs(maker, stopper) && maker.status == New
    requires maker.pair.asset in r.assets && maker.pair.quote in r.assets
    requires mid.orders == b.orders + [maker] && r.orders == mid.orders + [stopper]
    requires maker.group == Some(b.counter + 1) && mid.counter == b.counter + 2 && r.counter == b.counter + 3
    ensures WellFormed(r)
  {
    FreshGroup(b, maker);
    FreshGroup(b, stopper);
    hide WellFormed;
    AppendKeepsShape(b, mid, maker);
    AppendKeepsShape(mid, r, stopper);
  }

  lemma OcoKeepsSound(
    b: Book, initial: map<string, real>, pair: Pair, size: real, price: real, stop: real, stopLimit: real)
    requires Sound(b, initial) && Allowed(b, OcoOrder(pair, size, price, stop, stopLimit)) && size > 0.0
    requires Accepts(b, Sell, pair, size, price)
    ensures Sound(PlaceOco(b, Sell, pair, size, price, stop, stopLimit), initial)
  {
    hide WellFormed, Balanced, Fund, Accepts;
    var r := PlaceOco(b, Sell, pair, size, price, stop, stopLimit);
    var n := |b.orders|;
    var maker, stopper := r.orders[n], r.orders[n + 1];
    var mid := r.(orders := b.orders + [maker], counter := b.counter + 2);
    assert r.orders == mid.orders + [stopper];
    PairKeepsShape(b, mid, r, maker, stopper);
    PairBalances(b, mid, r, initial, maker, stopper);
  }

  // ----- cancelling -----

  lemma CancelWeighs(b: Book, initial: map<string, real>, i: nat, coin: string)
    requires i < |b.orders| && Withdrawable(b, i) && Plain(b.orders[i])
    requires forall k :: 0 <= k < |b.orders| ==> Plain(b.orders[k])
    requires Balanced(b, initial, coin) && Balanced(b, initial, b.orders[i].pair.asset)
    requires Refunds(b, i)
    ensures Balanced(CancelOrder(b, i), initial, coin)
  {
    var o := b.orders[i];
    LocksAreNonNegative(b, o.pair.asset);
    PositiveWorth(o.quantity, o.price);
    assert o.side == Sell ==> LockedBy(o.pair.asset, o) == o.quantity;
    hide Locked, Moved;
    OrderTurns(b, CancelOrder(b, i), initial, coin, i, o.(status := Canceled));
  }

  /** Cancelling a pending ungrouped order keeps the books balanced exactly when it is a sell, or a
      buy none of whose asset is locked: otherwise the coin of the buy stays locked. */
  lemma CancelBalancesIff(b: Book, initial: map<string, real>, i: nat)
    requires Sound(b, initial) && i < |b.orders| && Withdrawable(b, i)
    ensures Sound(CancelOrder(b, i), initial) <==> Refunds(b, i)
  {
    hide WellFormed, Balanced, Plain, Grouped, CancelOrder, Refunds;
    var o, r := b.orders[i], CancelOrder(b, i);
    assert Plain(o);
    TypeTellsGroup(o);
    CancelledOrders(b, i);
    CancelledStaysPlain(o);
    if Refunds(b, i) {
      forall coin ensures Balanced(r, initial, coin) {
        assert Balanced(b, initial, coin) && Balanced(b, initial, o.pair.asset);
        CancelWeighs(b, initial, i, coin);
      }
      CancelKeepsShape(b, i);
      UngroupedStaysGrouped(b.orders, i, o.(status := Canceled));
    } else {
      assert Balanced(b, initial, o.pair.quote);
      UnrefundedStaysLocked(b, initial, i);
    }
  }

  lemma CancelledStaysPlain(o: Order)
    requires Plain(o)
    ensures Plain(o.(status := Canceled))
  {
  }

  lemma UnrefundedStaysLocked(b: Book, initial: map<string, real>, i: nat)
    requires i < |b.orders| && Withdrawable(b, i) && Plain(b.orders[i]) && !Refunds(b, i)
    requires Balanced(b, initial, b.orders[i].pair.quote)
    ensures !Balanced(CancelOrder(b, i), initial, b.orders[i].pair.quote)
  {
    var o := b.orders[i];
    PositiveWorth(o.quantity, o.price);
    UpdateMoves(o.pair.quote, b.orders, i, o.(status := Canceled));
    hide Locked, Moved;
  }

  // ----- whole runs -----

  lemma LimitKeepsSound(b: Book, initial: map<string, real>, side: Side, p: Pair, size: real, price: real)
    requires Sound(b, initial) && Allowed(b, LimitOrder(side, p, size, price))
    ensures Sound(PlaceLimit(b, side, p, size, price), initial)
  {
    TouchKeepsSound(b, initial, p);
    hide Sound, Accepts, Fund;
    var r := PlaceLimit(b, side, p, size, price);
    if size != 0.0 && Accepts(b, side, p, size, price) {
      PlacingKeepsSound(b, r, initial, r.orders[|b.orders|], false);
    }
  }

  lemma StopKeepsSound(b: Book, initial: map<string, real>, p: Pair, size: real, price: real)
    requires Sound(b, initial) && Allowed(b, StopOrder(p, size, price))
    ensures Sound(PlaceStop(b, p, size, price), initial)
  {
    TouchKeepsSound(b, initial, p);
    hide Sound, Accepts, Fund;
    var r := PlaceStop(b, p, size, price);
    if size != 0.0 && Accepts(b, Sell, p, size, price) {
      PlacingKeepsSound(b, r, initial, r.orders[|b.orders|], false);
    }
  }

  lemma MarketKeepsSound(b: Book, initial: map<string, real>, side: Side, p: Pair, size: real)
    requires Sound(b, initial) && Allowed(b, MarketOrder(side, p, size))
    ensures Sound(PlaceMarket(b, side, p, size), initial)
  {
    TouchKeepsSound(b, initial, p);
    hide Sound, Accepts, Fund;
    var r := PlaceMarket(b, side, p, size);
    if size != 0.0 && Accepts(b, side, p, size, Close(b, p)) {
      PlacingKeepsSound(b, r, initial, r.orders[|b.orders|], true);
    }
  }

  lemma StepKeepsSound(b: Book, initial: map<string, real>, cmd: Command)
    requires Sound(b, initial) && Allowed(b, cmd)
    ensures Sound(Step(b, cmd), initial)
  {
    match cmd
    case LimitOrder(side, p, size, price) => LimitKeepsSound(b, initial, side, p, size, price);
    case StopOrder(p, size, price) => StopKeepsSound(b, initial, p, size, price);
    case OcoOrder(p, size, price, stop, stopLimit) =>
      hide Sound, Accepts;
      if size != 0.0 && Accepts(b, Sell, p, size, price) {
        OcoKeepsSound(b, initial, p, size, price, stop, stopLimit);
      } else {
        TouchKeepsSound(b, initial, p);
      }
    case MarketOrder(side, p, size) => MarketKeepsSound(b, initial, side, p, size);
    case Withdraw(i) => CancelBalancesIff(b, initial, i);
    case NewCandle(c) => TickKeepsSound(b, initial, c);
  }

  lemma {:induction false} RunKeepsSound(b: Book, initial: map<string, real>, cmds: seq<Command>)
    requires Sound(b, initial) && Legal(b, cmds)
    ensures Sound(Run(b, cmds), initial)
    decreases |cmds|
  {
    hide Sound, Step, Allowed;
    if cmds != [] {
      StepKeepsSound(b, initial, cmds[0]);
      RunKeepsSound(Step(b, cmds[0]), initial, cmds[1..]);
    }
  }

  // ----- what the invariant says -----

  /** An opening wallet: free amounts, nothing locked, no orders. */
  function Opening(initial: map<string, real>): Book {
    Book(0, map a | a in initial :: Asset(initial[a], 0.0), [], map[], map[], map[])
  }

  lemma OpeningIsSound(initial: map<string, real>)
    requires forall a :: a in initial ==> initial[a] >= 0.0
    ensures Sound(Opening(initial), initial)
  {
    forall a ensures Balanced(Opening(initial), initial, a) {}
  }

  lemma RunTwo(b: Book, first: Command, second: Command)
    requires Allowed(b, first) && Allowed(Step(b, first), second)
    ensures Legal(b, [first, second]) && Run(b, [first, second]) == Step(Step(b, first), second)
  {
    hide Allowed, Step;
    assert [first, second][1..] == [second] && [second][1..] == [];
    assert Legal(Step(b, first), [second]) && Run(Step(b, first), [second]) == Step(Step(b, first), second);
  }

  /** Lock accounting. In every long-only run each coin's lock is exactly what the pending orders
      need, an OCO group counting once, and no balance is ever negative. */
  lemma LocksMatchPendingOrders(initial: map<string, real>, cmds: seq<Command>, coin: string)
    requires forall a :: a in initial ==> initial[a] >= 0.0
    requires Legal(Opening(initial), cmds)
    ensures var b := Run(Opening(initial), cmds);
      && Lock(b, coin) == Sum(LockedAsset(coin), b.orders) + Sum(LockedQuote(coin), b.orders)
      && Free(b, coin) >= 0.0 && Lock(b, coin) >= 0.0
  {
    OpeningIsSound(initial);
    RunKeepsSound(Opening(initial), initial, cmds);
    var b := Run(Opening(initial), cmds);
    assert Balanced(b, initial, coin);
    LocksAreNonNegative(b, coin);
  }

  /** Resuming. What a coin holds, free and locked, is what replaying the filled orders at their
      recorded price gives, plus the slip of filled stop orders. */
  lemma HoldingsMatchReplay(initial: map<string, real>, cmds: seq<Command>, coin: string)
    requires forall a :: a in initial ==> initial[a] >= 0.0
    requires Legal(Opening(initial), cmds)
    ensures var b := Run(Opening(initial), cmds);
      Free(b, coin) + Lock(b, coin)
      == Lookup(initial, coin) + Sum(Flow(coin), b.orders) + Sum(Slip(coin), b.orders)
  {
    OpeningIsSound(initial);
    RunKeepsSound(Opening(initial), initial, cmds);
    assert Balanced(Run(Opening(initial), cmds), initial, coin);
  }

  /** At most one leg of a group is ever filled, and the other is then cancelled. */
  lemma OneLegFills(initial: map<string, real>, cmds: seq<Command>, i: nat, j: nat)
    requires forall a :: a in initial ==> initial[a] >= 0.0
    requires Legal(Opening(initial), cmds)
    requires var b := Run(Opening(initial), cmds);
      i < |b.orders| && j < |b.orders| && InGroup(b.orders[j], b.orders[i])
    ensures var o := Run(Opening(initial), cmds).orders;
      && (o[i].status == Filled <==> o[j].status == Canceled)
      && (o[i].status == Canceled <==> o[j].status == Filled)
  {
    OpeningIsSound(initial);
    RunKeepsSound(Opening(initial), initial, cmds);
    LegsSettleTogether(Run(Opening(initial), cmds), initial, i, j);
  }

  lemma LegsSettleTogether(b: Book, initial: map<string, real>, i: nat, j: nat)
    requires Sound(b, initial) && i < |b.orders| && j < |b.orders| && InGroup(b.orders[j], b.orders[i])
    ensures b.orders[i].status == Filled <==> b.orders[j].status == Canceled
    ensures b.orders[i].status == Canceled <==> b.orders[j].status == Filled
  {
    assert Plain(b.orders[i]) && Plain(b.orders[j]);
    var k := if b.orders[i].typ == LimitMaker then i + 1 else i - 1;
    assert Plain(b.orders[k]);
    SiblingIsTheGroup(b.orders, b.counter, i, k);
    SiblingIsTheGroup(b.orders, b.counter, i, j);
  }

  lemma StepEvolves(b: Book, initial: map<string, real>, cmd: Command)
    requires Sound(b, initial) && Allowed(b, cmd)
    ensures |b.orders| <= |Step(b, cmd).orders|
    ensures Evolves(b.orders, Step(b, cmd).orders[..|b.orders|])
  {
    var r := Step(b, cmd);
    match cmd
    case Withdraw(i) =>
      CancelKeepsShape(b, i);
      assert r.orders[..|b.orders|] == r.orders;
    case NewCandle(c) =>
      ScanKeepsShape(b.(last := b.last[c.pair := c]), c, |b.orders|);
      assert r.orders[..|b.orders|] == r.orders;
    case _ =>
      hide Fund, Accepts, WellFormed, Balanced;
      assert r.orders[..|b.orders|] == b.orders;
  }

  lemma StepSettles(b: Book, initial: map<string, real>, cmd: Command, i: nat)
    requires Sound(b, initial) && Allowed(b, cmd) && i < |b.orders| && b.orders[i].status != New
    ensures i < |Step(b, cmd).orders| && Step(b, cmd).orders[i].status == b.orders[i].status
  {
    hide Sound, Step, Allowed;
    StepEvolves(b, initial, cmd);
    assert Step(b, cmd).orders[..|b.orders|][i] == Step(b, cmd).orders[i];
  }

  /** What a step has settled, no later step changes: filled and cancelled are for good. */
  lemma {:induction false} SettledForGood(b: Book, initial: map<string, real>, cmds: seq<Command>, i: nat)
    requires Sound(b, initial) && Legal(b, cmds) && i < |b.orders| && b.orders[i].status != New
    ensures i < |Run(b, cmds).orders| && Run(b, cmds).orders[i].status == b.orders[i].status
    decreases |cmds|
  {
    hide Sound, Step, Allowed;
    if cmds != [] {
      StepKeepsSound(b, initial, cmds[0]);
      StepSettles(b, initial, cmds[0], i);
      SettledForGood(Step(b, cmds[0]), initial, cmds[1..], i);
    }
  }
}
