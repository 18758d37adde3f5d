/** What the simulated exchange promises, stated on values: funding rules by case, and matching
    that offers a candle to every order of its pair in creation order. */
module WalletSpec {
  import opened Types
  import opened Ledger

  datatype Asset = Asset(free: real, lock: real)

  datatype Book = Book(
    counter: int,
    assets: map<string, Asset>,
    orders: seq<Order>,
    avgLong: map<Pair, real>,
    avgShort: map<Pair, real>,
    last: map<Pair, Candle>)

  function Get(assets: map<string, Asset>, a: string): Asset {
    if a in assets then assets[a] else Asset(0.0, 0.0)
  }

  function Free(b: Book, a: string): real { Get(b.assets, a).free }

  function Lock(b: Book, a: string): real { Get(b.assets, a).lock }

  function Close(b: Book, pair: Pair): real { if pair in b.last then b.last[pair].close else 0.0 }

  function Clock(b: Book, pair: Pair): int { if pair in b.last then b.last[pair].time else ZERO_TIME }

  /** Both coins of the pair get an entry, empty when new. */
  function Touch(b: Book, pair: Pair): Book {
    b.(assets := b.assets[pair.asset := Get(b.assets, pair.asset)]
                         [pair.quote := Get(b.assets, pair.quote)])
  }

  function Credit(b: Book, a: string, free: real, lock: real): (r: Book)
    ensures r.assets.Keys == b.assets.Keys + {a} && Frame(b, r)
  {
    b.(assets := b.assets[a := Asset(Free(b, a) + free, Lock(b, a) + lock)])
  }

  /** Funding leaves everything but balances and average prices alone. */
  ghost predicate Frame(b: Book, r: Book) { r.orders == b.orders && r.counter == b.counter && r.last == b.last }

  // ----- average entry prices -----

  /** Adding `amount` at `value` to a position of `held` units entered at `avg`; a flat or opposite
      position restarts at `value`. A zero total does not occur for positive amounts. */
  function Blend(held: real, avg: real, amount: real, value: real): real {
    if held <= 0.0 || held + amount == 0.0 then value else (Worth(held, avg) + Worth(amount, value)) / (held + amount)
  }

  /** A buy moves the long average unless it only reduces a short of at least that size; a sell
      moves the short average by the mirrored rule. */
  function Average(b: Book, side: Side, pair: Pair, amount: real, value: real): (r: Book)
    ensures r.assets == b.assets && Frame(b, r)
  {
    var held := Free(b, pair.asset);
    match side
    case Buy =>
      if held >= 0.0 || amount > -held
      then b.(avgLong := b.avgLong[pair := Blend(held, Lookup(b.avgLong, pair), amount, value)]) else b
    case Sell =>
      if held <= 0.0 || amount > held
      then b.(avgShort := b.avgShort[pair := Blend(-held, Lookup(b.avgShort, pair), amount, value)]) else b
  }

  // ----- funding -----

  /** The value of a short of `short` units when bought back at `price`. */
  function ShortValue(short: real, avg: real, price: real): real { 2.0 * Worth(short, avg) - Worth(short, price) }

  /** What buying back the whole short of the pair at `value` would add to the quote coin. */
  function Liquid(b: Book, pair: Pair, value: real): real {
    var f := Free(b, pair.asset);
    if f < 0.0 then ShortValue(-f, Lookup(b.avgShort, pair), value) else 0.0
  }

  predicate Accepts(b: Book, side: Side, pair: Pair, amount: real, value: real) {
    var f, q := Free(b, pair.asset), Free(b, pair.quote);
    match side
    case Sell => q + Worth(MaxReal(f, 0.0), value) >= Worth(amount, value)
    case Buy => q + Liquid(b, pair, value) >= Worth(amount + MinReal(f, 0.0), value)
  }

  /** A pending sell locks what is held and funds the remainder in the quote coin. */
  function LockSell(b: Book, pair: Pair, amount: real, value: real): Book {
    var held := MinReal(MaxReal(Free(b, pair.asset), 0.0), amount);
    Credit(Credit(b, pair.asset, -held, held), pair.quote,
           -Worth(amount - held, value), Worth(amount - held, value))
  }

  /** A pending buy locks the part that covers a short and funds the remainder in the quote coin. */
  function LockBuy(b: Book, pair: Pair, amount: real, value: real): Book {
    var covered := MinReal(-MinReal(Free(b, pair.asset), 0.0), amount);
    var cost := Worth(amount - covered, value) - Liquid(b, pair, value);
    Credit(Credit(b, pair.asset, covered, covered), pair.quote, -cost, cost)
  }

  /** A market sell: reduces a long, or opens, crosses into or adds to a short. */
  function FillMarketSell(b: Book, pair: Pair, amount: real, value: real): Book {
    var f := Free(b, pair.asset);
    if amount <= f || value <= 0.0 then // reduces or closes a long; without a price, no short is entered
      var held := MinReal(MaxReal(f, 0.0), amount);
      Credit(Average(Credit(b, pair.asset, -held, 0.0), Sell, pair, amount, value),
             pair.quote, Worth(held, value), 0.0)
    else if f > 0.0 then // crosses into a short of the whole amount
      var flat := Credit(b, pair.asset, -f, 0.0);
      Credit(Credit(Average(flat, Sell, pair, amount, value), pair.asset, -amount, 0.0),
             pair.quote, -Worth(amount - f, value), 0.0)
    else // opens or adds to a short
      Credit(Credit(Average(b, Sell, pair, amount, value), pair.asset, -amount, 0.0),
             pair.quote, -Worth(amount, value), 0.0)
  }

  /** A market buy: opens or adds to a long, or covers a short and goes long with the rest. */
  function FillMarketBuy(b: Book, pair: Pair, amount: real, value: real): Book {
    var f := Free(b, pair.asset);
    if f >= 0.0 then
      Credit(Credit(Average(b, Buy, pair, amount, value), pair.asset, amount, 0.0),
             pair.quote, -Worth(amount, value), 0.0)
    else
      var covered := MinReal(-f, amount);
      var shorter := Credit(b, pair.asset, covered, 0.0);
      Credit(Credit(Average(shorter, Buy, pair, amount, value), pair.asset, amount - covered, 0.0),
             pair.quote, Liquid(b, pair, value) - Worth(amount - covered, value), 0.0)
  }

  function Fund(b: Book, side: Side, pair: Pair, amount: real, value: real, fill: bool): (r: Book)
    ensures r.assets.Keys == b.assets.Keys + {pair.asset, pair.quote} && Frame(b, r)
  {
    hide Average, Credit;
    if side == Sell
    then if fill then FillMarketSell(b, pair, amount, value) else LockSell(b, pair, amount, value)
    else if fill then FillMarketBuy(b, pair, amount, value) else LockBuy(b, pair, amount, value)
  }

  /** The first order with the number. */
  function Found(orders: seq<Order>, exchangeId: int): (r: Option<Order>)
    ensures r.Some? ==> r.value in orders && r.value.exchangeId == exchangeId
    ensures r.None? ==> forall i :: 0 <= i < |orders| ==> orders[i].exchangeId != exchangeId
  {
    if orders == [] then None
    else if orders[0].exchangeId == exchangeId then Some(orders[0]) else Found(orders[1..], exchangeId)
  }

  // ----- matching -----

  /** The first order from k on that shares o's group but is another order. */
  function Sibling(orders: seq<Order>, o: Order, k: nat): (r: Option<nat>)
    ensures r.Some? ==> k <= r.value < |orders| && InGroup(orders[r.value], o)
    ensures r.Some? ==> forall j :: k <= j < r.value ==> !InGroup(orders[j], o)
    ensures r.None? ==> forall j :: k <= j < |orders| ==> !InGroup(orders[j], o)
    decreases |orders| - k
  {
    if k >= |orders| then None
    else if InGroup(orders[k], o) then Some(k) else Sibling(orders, o, k + 1)
  }

  predicate InGroup(other: Order, o: Order) {
    o.group.Some? && other.group == o.group && other.exchangeId != o.exchangeId
  }

  function WithStatus(b: Book, i: nat, status: Status, time: int): Book
    requires i < |b.orders|
  {
    b.(orders := b.orders[i := b.orders[i].(status := status, updatedAt := time)])
  }

  function CancelSibling(b: Book, o: Order, time: int): Book {
    var s := Sibling(b.orders, o, 0);
    if s.Some? then WithStatus(b, s.value, Canceled, time) else b
  }

  /** The price at which the candle fills a pending sell, if it does. */
  function Trigger(o: Order, c: Candle): Option<real> {
    if o.typ in {Limit, LimitMaker, TakeProfit, TakeProfitLimit} && c.high >= o.price then Some(o.price)
    else if IsStop(o) && o.stop.Some? && c.low <= o.stop.value then o.stop
    else None
  }

  function FillBuy(b: Book, i: nat, c: Candle): Book
    requires i < |b.orders|
  {
    var o := b.orders[i];
    var paid := Average(WithStatus(b, i, Filled, c.time), Buy, o.pair, o.quantity, o.price);
    Credit(Credit(paid, o.pair.asset, o.quantity, 0.0), o.pair.quote, 0.0, -Worth(o.quantity, o.price))
  }

  function FillSell(b: Book, i: nat, c: Candle, price: real): Book
    requires i < |b.orders|
  {
    var o := b.orders[i];
    var alone := WithStatus(CancelSibling(b, o, c.time), i, Filled, c.time);
    var sold := Average(alone, Sell, o.pair, o.quantity, price);
    Credit(Credit(sold, o.pair.asset, 0.0, -o.quantity), o.pair.quote, Worth(o.quantity, price), 0.0)
  }

  /** Offers the candle to order i. */
  function Match(b: Book, i: nat, c: Candle): (r: Book)
    requires i < |b.orders|
    ensures |r.orders| == |b.orders|
  {
    var o := b.orders[i];
    if o.pair != c.pair || o.status != New then b
    else if o.side == Buy then if o.price >= c.close then FillBuy(b, i, c) else b
    else match Trigger(o, c)
      case Some(price) => FillSell(b, i, c, price)
      case None => b
  }

  /** Offers the candle to the first n orders, oldest first. */
  function Scan(b: Book, c: Candle, n: nat): (r: Book)
    requires n <= |b.orders|
    ensures |r.orders| == |b.orders|
  {
    if n == 0 then b else Match(Scan(b, c, n - 1), n - 1, c)
  }

  function Tick(b: Book, c: Candle): (r: Book)
    ensures |r.orders| == |b.orders|
  {
    Scan(b.(last := b.last[c.pair := c]), c, |b.orders|)
  }

  // ----- placing and cancelling -----

  function Draft(time: int, exchangeId: int, side: Side, pair: Pair, typ: OrderType, status: Status,
                 price: real, size: real, stop: Option<real>, group: Option<int>): Order {
    Order(0, exchangeId, pair, side, typ, status, price, size, time, time, stop, group)
  }

  function PlaceLimit(b: Book, side: Side, pair: Pair, size: real, price: real): Book {
    if size == 0.0 then b
    else if !Accepts(b, side, pair, size, price) then Touch(b, pair)
    else
      var f := Fund(Touch(b, pair), side, pair, size, price, false);
      f.(counter := b.counter + 1,
         orders := b.orders + [Draft(Clock(b, pair), b.counter + 1, side, pair, Limit, New, price, size, None, None)])
  }

  function PlaceStop(b: Book, pair: Pair, size: real, price: real): Book {
    if size == 0.0 then b
    else if !Accepts(b, Sell, pair, size, price) then Touch(b, pair)
    else
      var f := Fund(Touch(b, pair), Sell, pair, size, price, false);
      var id := b.counter + 1;
      f.(counter := id,
         orders := b.orders
                   + [Draft(Clock(b, pair), id, Sell, pair, StopLossLimit, New, price, size, Some(price), None)])
  }

  function PlaceMarket(b: Book, side: Side, pair: Pair, size: real): Book {
    var price := Close(b, pair);
    if size == 0.0 then b
    else if !Accepts(b, side, pair, size, price) then Touch(b, pair)
    else
      var f := Fund(Touch(b, pair), side, pair, size, price, true);
      var id := b.counter + 1;
      f.(counter := id,
         orders := b.orders + [Draft(Clock(b, pair), id, side, pair, Market, Filled, price, size, None, None)])
  }

  function PlaceOco(b: Book, side: Side, pair: Pair, size: real, price: real, stop: real, stopLimit: real): Book {
    if size == 0.0 then b
    else if !Accepts(b, side, pair, size, price) then Touch(b, pair)
    else
      var f := Fund(Touch(b, pair), side, pair, size, price, false);
      var g := Some(b.counter + 1);
      f.(counter := b.counter + 3,
         orders := b.orders
                   + [Draft(Clock(b, pair), b.counter + 2, side, pair, LimitMaker, New, price, size, None, g)]
                   + [Draft(Clock(b, pair), b.counter + 3, side, pair, StopLoss, New, stopLimit, size, Some(stop), g)])
  }

  /** Cancelling returns what the order locked: the asset of a sell, or the coin of a buy unless
      some of the asset is locked too. */
  function Refund(b: Book, o: Order): Book {
    if o.side == Sell && Lock(b, o.pair.asset) > 0.0 then
      Credit(b, o.pair.asset, o.quantity, -o.quantity)
    else if Lock(b, o.pair.asset) == 0.0 then
      Credit(b, o.pair.quote, Worth(o.quantity, o.price), -Worth(o.quantity, o.price))
    else b
  }

  function CancelOrder(b: Book, i: nat): Book
    requires i < |b.orders|
  {
    var o := b.orders[i];
    Refund(b.(orders := b.orders[i := o.(status := Canceled)]), o)
  }
}
