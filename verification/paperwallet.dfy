/** The simulated exchange. Its methods work on the index of pending orders; their contracts are
    the value-level rules of WalletSpec, which know no index. */
module PaperWallets {
  import opened Types
  import opened WalletSpec
  import opened WalletShape
  import opened Equity

  datatype Error = InvalidQuantity | InsufficientFunds

  datatype Result<+T> = Ok(value: T) | Err(error: Error)

  /** A pair's pending index: positions of orders of that pair, oldest first. */
  predicate Indexed(orders: seq<Order>, pair: Pair, index: seq<nat>) {
    && StrictlyIncreasing(index)
    && forall n :: 0 <= n < |index| ==> index[n] < |orders| && orders[index[n]].pair == pair
  }

  /** Every pending order is found through the index of its pair. */
  predicate IndexCovers(orders: seq<Order>, pending: map<Pair, seq<nat>>) {
    && (forall p :: p in pending ==> Indexed(orders, p, pending[p]))
    && (forall k :: 0 <= k < |orders| && orders[k].status == New ==>
          orders[k].pair in pending && k in pending[orders[k].pair])
  }

  /** The index only gains positions. */
  predicate IndexGrows(a: map<Pair, seq<nat>>, b: map<Pair, seq<nat>>) {
    forall p :: p in a ==> p in b && a[p] <= b[p]
  }

  /** The index without the completed positions. */
  function Without(index: seq<nat>, done: set<nat>): (r: seq<nat>)
    ensures forall k :: k in r <==> k in index && k !in done
    ensures StrictlyIncreasing(index) ==> StrictlyIncreasing(r)
  {
    if index == [] then []
    else
      var init, last := index[..|index|-1], index[|index|-1];
      var rest := Without(init, done);
      WithoutNext(init, last, rest, done);
      assert init + [last] == index;
      if last in done then rest else rest + [last]
  }

  lemma WithoutNext(init: seq<nat>, last: nat, rest: seq<nat>, done: set<nat>)
    requires forall k :: k in rest <==> k in init && k !in done
    ensures var index, r := init + [last], if last in done then rest else rest + [last];
      forall k :: k in r <==> k in index && k !in done
    ensures var index, r := init + [last], if last in done then rest else rest + [last];
      StrictlyIncreasing(index) && (StrictlyIncreasing(init) ==> StrictlyIncreasing(rest)) ==> StrictlyIncreasing(r)
  {
    var index := init + [last];
    if StrictlyIncreasing(index) && (StrictlyIncreasing(init) ==> StrictlyIncreasing(rest)) {
      assert forall i, j :: 0 <= i < j < |init| ==> init[i] == index[i] < index[j] == init[j];
      forall n | 0 <= n < |rest| ensures rest[n] < last {
        assert rest[n] in rest;
        var i :| 0 <= i < |init| && init[i] == rest[n];
        assert index[i] < index[|init|];
      }
    }
  }

  class PaperWallet {
    const baseCoin: string
    var counter: int
    var orders: seq<Order>
    var pendingOrders: map<Pair, seq<nat>>
    var assets: map<string, Asset>
    var avgShortPrice: map<Pair, real>
    var avgLongPrice: map<Pair, real>
    var lastCandle: map<Pair, Candle>
    var equityValues: seq<AssetValue>
    var assetValues: map<string, seq<AssetValue>>

    constructor (baseCoin: string, assets: map<string, Asset>)
      ensures Valid()
      ensures this.baseCoin == baseCoin && equityValues == [] && assetValues == map[] && pendingOrders == map[]
      ensures View() == Book(0, assets, [], map[], map[], map[])
    {
      this.baseCoin := baseCoin;
      this.assets := assets;
      counter, orders, pendingOrders := 0, [], map[];
      avgShortPrice, avgLongPrice, lastCandle, equityValues, assetValues := map[], map[], map[], [], map[];
    }

    ghost function View(): Book
      reads this
    {
      Book(counter, assets, orders, avgLongPrice, avgShortPrice, lastCandle)
    }

    ghost predicate Valid()
      reads this
    {
      WellFormed(View()) && IndexCovers(orders, pendingOrders)
    }

    // ----- funding -----

    method UpdateAveragePrice(side: Side, pair: Pair, amount: real, value: real)
      requires amount > 0.0
      modifies this`avgShortPrice, this`avgLongPrice
      ensures View() == Average(old(View()), side, pair, amount, value)
    {
      hide Worth;
      var actualQty := 0.0;
      if pair.asset in assets { actualQty := assets[pair.asset].free; }

      if actualQty == 0.0 {
        if side == Buy {
          avgLongPrice := avgLongPrice[pair := value];
        } else {
          avgShortPrice := avgShortPrice[pair := value];
        }
        return;
      }
      if actualQty > 0.0 && side == Buy {
        var positionValue := Worth(actualQty, Lookup(avgLongPrice, pair));
        avgLongPrice := avgLongPrice[pair := (positionValue + Worth(amount, value)) / (actualQty + amount)];
        return;
      }
      if actualQty > 0.0 && side == Sell {
        if amount <= actualQty { return; }
        avgShortPrice := avgShortPrice[pair := value];
        return;
      }
      if actualQty < 0.0 && side == Sell {
        var positionValue := Worth(-actualQty, Lookup(avgShortPrice, pair));
        avgShortPrice := avgShortPrice[pair := (positionValue + Worth(amount, value)) / (-actualQty + amount)];
        return;
      }
      if actualQty < 0.0 && side == Buy {
        if amount <= -actualQty { return; }
        avgLongPrice := avgLongPrice[pair := value];
      }
    }

    method Adjust(asset: string, free: real, lock: real)
      requires asset in assets
      modifies this`assets
      ensures View() == Credit(old(View()), asset, free, lock)
    {
      assets := assets[asset := Asset(assets[asset].free + free, assets[asset].lock + lock)];
    }

    method ValidateFunds(side: Side, pair: Pair, amount: real, value: real, fill: bool) returns (ok: bool)
      requires amount > 0.0 && pair.asset != pair.quote
      modifies this`assets, this`avgShortPrice, this`avgLongPrice
      ensures ok == Accepts(old(View()), side, pair, amount, value)
      ensures View() == if ok then Fund(Touch(old(View()), pair), side, pair, amount, value, fill)
                        else Touch(old(View()), pair)
    {
      var asset, quote := pair.asset, pair.quote;
      if asset !in assets { assets := assets[asset := Asset(0.0, 0.0)]; }
      if quote !in assets { assets := assets[quote := Asset(0.0, 0.0)]; }
      assert View() == Touch(old(View()), pair);
      if side == Sell {
        ok := ValidateSell(pair, amount, value, fill);
      } else {
        ok := ValidateBuy(pair, amount, value, fill);
      }
    }

    method ValidateSell(pair: Pair, amount: real, value: real, fill: bool) returns (ok: bool)
      requires amount > 0.0 && pair.asset != pair.quote
      requires pair.asset in assets && pair.quote in assets
      modifies this`assets, this`avgShortPrice, this`avgLongPrice
      ensures ok == Accepts(old(View()), Sell, pair, amount, value)
      ensures View() == if ok then Fund(old(View()), Sell, pair, amount, value, fill) else old(View())
    {
      hide Average, Credit, FillMarketSell, FillMarketBuy, LockSell, LockBuy;
      var asset, quote := pair.asset, pair.quote;
      var funds := assets[quote].free;
      var held := assets[asset].free;
      if held > 0.0 { funds := funds + Worth(held, value); }
      if funds < Worth(amount, value) { return false; }

      var lockedAsset := MinReal(MaxReal(held, 0.0), amount);
      var lockedQuote := Worth(amount - lockedAsset, value);
      Adjust(asset, -lockedAsset, 0.0);
      Adjust(quote, -lockedQuote, 0.0);
      if fill {
        UpdateAveragePrice(Sell, pair, amount, value);
        if lockedQuote > 0.0 {
          Adjust(asset, -amount, 0.0);
        } else {
          Adjust(quote, Worth(amount, value), 0.0);
        }
      } else {
        Adjust(asset, 0.0, lockedAsset);
        Adjust(quote, 0.0, lockedQuote);
      }
      ok := true;
      if fill {
        SellFillSteps(old(View()), pair, amount, value, lockedAsset, lockedQuote);
      } else {
        SellLockSteps(old(View()), pair, amount, value, lockedAsset, lockedQuote);
      }
    }

    method ValidateBuy(pair: Pair, amount: real, value: real, fill: bool) returns (ok: bool)
      requires amount > 0.0 && pair.asset != pair.quote
      requires pair.asset in assets && pair.quote in assets
      modifies this`assets, this`avgShortPrice, this`avgLongPrice
      ensures ok == Accepts(old(View()), Buy, pair, amount, value)
      ensures View() == if ok then Fund(old(View()), Buy, pair, amount, value, fill) else old(View())
    {
      hide Average, Credit, FillMarketSell, FillMarketBuy, LockSell, LockBuy;
      var asset, quote := pair.asset, pair.quote;
      var funds := assets[quote].free;
      var held := assets[asset].free;
      var liquidShortValue := 0.0;
      if held < 0.0 {
        var v := -held;
        liquidShortValue := 2.0 * Worth(v, Lookup(avgShortPrice, pair)) - Worth(v, value);
        funds := funds + liquidShortValue;
      }
      var amountToBuy := amount;
      if held < 0.0 { amountToBuy := amount + held; }
      if funds < Worth(amountToBuy, value) { return false; }

      var lockedAsset := MinReal(-MinReal(held, 0.0), amount);
      var lockedQuote := Worth(amount - lockedAsset, value) - liquidShortValue;
      Adjust(asset, lockedAsset, 0.0);
      Adjust(quote, -lockedQuote, 0.0);
      if fill {
        UpdateAveragePrice(Buy, pair, amount, value);
        Adjust(asset, amount - lockedAsset, 0.0);
      } else {
        Adjust(asset, 0.0, lockedAsset);
        Adjust(quote, 0.0, lockedQuote);
      }
      ok := true;
      if fill {
        BuyFillSteps(old(View()), pair, amount, value, lockedAsset, lockedQuote);
      } else {
        BuyLockSteps(old(View()), pair, amount, value, lockedAsset, lockedQuote);
      }
    }

    method ID() returns (id: int)
      modifies this`counter
      ensures id == counter == old(counter) + 1
    {
      counter := counter + 1;
      id := counter;
    }

    // ----- placing orders -----

    function Now(pair: Pair): (time: int)
      reads this
      ensures time == Clock(View(), pair)
    {
      if pair in lastCandle then lastCandle[pair].time else ZERO_TIME
    }

    method CreateOrderLimit(side: Side, pair: Pair, size: real, limit: real) returns (r: Result<Order>)
      requires Valid() && Tradable(pair, size)
      modifies this
      ensures Valid() && equityValues == old(equityValues) && assetValues == old(assetValues)
      ensures IndexGrows(old(pendingOrders), pendingOrders)
      ensures View() == PlaceLimit(old(View()), side, pair, size, limit)
      ensures Reply(r, size, old(View()), side, pair, limit)
      ensures r.Err? ==> orders == old(orders)
      ensures r.Ok? ==> orders == old(orders) + [r.value] && IsDraft(r.value, New, pair, size)
    {
      hide Fund, Accepts, WellFormed, IndexCovers;
      if size == 0.0 { return Err(InvalidQuantity); }
      var ok := ValidateFunds(side, pair, size, limit, false);
      if !ok {
        TouchKeepsShape(old(View()), pair);
        return Err(InsufficientFunds);
      }
      var id := ID();
      var order := Draft(Now(pair), id, side, pair, Limit, New, limit, size, None, None);
      Append(order, old(View()));
      r := Ok(order);
    }

    method CreateOrderStop(pair: Pair, size: real, limit: real) returns (r: Result<Order>)
      requires Valid() && Tradable(pair, size)
      modifies this
      ensures Valid() && equityValues == old(equityValues) && assetValues == old(assetValues)
      ensures IndexGrows(old(pendingOrders), pendingOrders)
      ensures View() == PlaceStop(old(View()), pair, size, limit)
      ensures Reply(r, size, old(View()), Sell, pair, limit)
      ensures r.Err? ==> orders == old(orders)
      ensures r.Ok? ==> orders == old(orders) + [r.value] && IsDraft(r.value, New, pair, size)
    {
      hide Fund, Accepts, WellFormed, IndexCovers;
      if size == 0.0 { return Err(InvalidQuantity); }
      var ok := ValidateFunds(Sell, pair, size, limit, false);
      if !ok {
        TouchKeepsShape(old(View()), pair);
        return Err(InsufficientFunds);
      }
      var id := ID();
      var order := Draft(Now(pair), id, Sell, pair, StopLossLimit, New, limit, size, Some(limit), None);
      Append(order, old(View()));
      r := Ok(order);
    }

    method CreateOrderMarket(side: Side, pair: Pair, size: real) returns (r: Result<Order>)
      requires Valid() && Tradable(pair, size)
      modifies this
      ensures Valid() && equityValues == old(equityValues) && assetValues == old(assetValues)
      ensures pendingOrders == old(pendingOrders)
      ensures View() == PlaceMarket(old(View()), side, pair, size)
      ensures Reply(r, size, old(View()), side, pair, WalletSpec.Close(old(View()), pair))
      ensures r.Err? ==> orders == old(orders)
      ensures r.Ok? ==> orders == old(orders) + [r.value] && IsDraft(r.value, Filled, pair, size)
    {
      hide Fund, Accepts, WellFormed, IndexCovers;
      if size == 0.0 { return Err(InvalidQuantity); }
      var price := if pair in lastCandle then lastCandle[pair].close else 0.0;
      var ok := ValidateFunds(side, pair, size, price, true);
      if !ok {
        TouchKeepsShape(old(View()), pair);
        return Err(InsufficientFunds);
      }
      var id := ID();
      var order := Draft(Now(pair), id, side, pair, Market, Filled, price, size, None, None);
      orders := orders + [order];
      AppendKeepsShape(old(View()), View(), order);
      FilledKeepsIndex(old(orders), order, pendingOrders);
      r := Ok(order);
    }

    method CreateOrderOCO(side: Side, pair: Pair, size: real, price: real, stop: real, stopLimit: real)
      returns (r: Result<(Order, Order)>)
      requires Valid() && Tradable(pair, size)
      modifies this
      ensures Valid() && equityValues == old(equityValues) && assetValues == old(assetValues)
      ensures IndexGrows(old(pendingOrders), pendingOrders)
      ensures View() == PlaceOco(old(View()), side, pair, size, price, stop, stopLimit)
      ensures Reply(r, size, old(View()), side, pair, price)
      ensures r.Err? ==> orders == old(orders)
      ensures r.Ok? ==> orders == old(orders) + [r.value.0] + [r.value.1]
      ensures r.Ok? ==> IsDraft(r.value.0, New, pair, size) && IsDraft(r.value.1, New, pair, size)
    {
      hide Fund, Accepts, WellFormed, IndexCovers;
      if size == 0.0 { return Err(InvalidQuantity); }
      var ok := ValidateFunds(side, pair, size, price, false);
      if !ok {
        TouchKeepsShape(old(View()), pair);
        return Err(InsufficientFunds);
      }
      var limitMaker, stopOrder := EnterGroup(side, pair, size, price, stop, stopLimit, old(View()));
      r := Ok((limitMaker, stopOrder));
    }

    /** Draws the group and order identifiers and stores both legs. */
    method EnterGroup(side: Side, pair: Pair, size: real, price: real, stop: real, stopLimit: real,
                      ghost before: Book)
      returns (limitMaker: Order, stopOrder: Order)
      requires WellFormed(before) && before.orders == orders && before.counter == counter
      requires before.assets.Keys <= assets.Keys && pair.asset in assets && pair.quote in assets
      requires size > 0.0 && pair.asset != pair.quote && IndexCovers(orders, pendingOrders)
      modifies this`counter, this`orders, this`pendingOrders
      ensures Valid() && orders == old(orders) + [limitMaker] + [stopOrder] && counter == old(counter) + 3
      ensures IndexGrows(old(pendingOrders), pendingOrders)
      ensures var g := Some(old(counter) + 1);
        && limitMaker == Draft(Now(pair), g.value + 1, side, pair, LimitMaker, New, price, size, None, g)
        && stopOrder == Draft(Now(pair), g.value + 2, side, pair, StopLoss, New, stopLimit, size, Some(stop), g)
    {
      hide WellFormed, IndexCovers;
      var groupId := ID();
      var limitId := ID();
      limitMaker := Draft(Now(pair), limitId, side, pair, LimitMaker, New, price, size, None, Some(groupId));
      FreshGroup(before, limitMaker);
      Append(limitMaker, before);
      ghost var between := View();
      var stopId := ID();
      stopOrder := Draft(Now(pair), stopId, side, pair, StopLoss, New, stopLimit, size, Some(stop), Some(groupId));
      FreshGroup(before, stopOrder);
      Append(stopOrder, between);
    }

    /** Stores a new pending order and indexes it under its pair. */
    method Append(order: Order, ghost before: Book)
      requires WellFormed(before) && before.orders == orders
      requires before.assets.Keys <= assets.Keys && before.counter < order.exchangeId <= counter
      requires Sane(order) && order.status == New && Backed(assets, order)
      requires order.group.Some? ==> order.group.value <= counter
      requires forall i :: 0 <= i < |orders| && InGroup(orders[i], order) ==>
        orders[i].status == New && orders[i].side == order.side
      requires IndexCovers(orders, pendingOrders)
      modifies this`orders, this`pendingOrders
      ensures Valid() && orders == old(orders) + [order] && IndexGrows(old(pendingOrders), pendingOrders)
    {
      hide WellFormed, Sane, Backed, IndexCovers, InGroup;
      AppendedIndex(orders, order, pendingOrders);
      var orderIdx := |orders|;
      orders := orders + [order];
      var index := (if order.pair in pendingOrders then pendingOrders[order.pair] else []) + [orderIdx];
      pendingOrders := pendingOrders[order.pair := index];
      AppendKeepsShape(before, View(), order);
    }

    /** Cancels the order of which the caller holds a copy, whatever its status; an unknown one changes
        nothing. */
    method Cancel(order: Order)
      requires Valid()
      requires forall i :: 0 <= i < |orders| && orders[i].exchangeId == order.exchangeId ==>
        orders[i].price == order.price && orders[i].quantity == order.quantity
      modifies this`orders, this`assets
      ensures Valid()
      ensures forall i :: 0 <= i < |old(orders)| && old(orders)[i].exchangeId == order.exchangeId ==>
        View() == CancelOrder(old(View()), i)
      ensures (forall i :: 0 <= i < |old(orders)| ==> old(orders)[i].exchangeId != order.exchangeId) ==>
        View() == old(View())
    {
      hide WellFormed, IndexCovers, CancelOrder;
      ghost var b := View();
      var n := 0;
      while n < |orders| && orders[n].exchangeId != order.exchangeId
        invariant 0 <= n <= |orders|
        invariant forall i :: 0 <= i < n ==> orders[i].exchangeId != order.exchangeId
      {
        n := n + 1;
      }
      if n == |orders| { return; }
      forall i | 0 <= i < |orders| && orders[i].exchangeId == order.exchangeId ensures i == n {
        IdentifierIsUnique(b, i, n);
      }
      CancelAt(n, Worth(order.quantity, order.price));
      CancelKeepsShape(b, n);
      CancelledOrders(b, n);
      CancellingKeepsIndex(b.orders, n, pendingOrders);
    }

    method CancelAt(i: nat, amount: real)
      requires WellFormed(View()) && i < |orders| && amount == Worth(orders[i].quantity, orders[i].price)
      modifies this`orders, this`assets
      ensures View() == CancelOrder(old(View()), i)
    {
      var o := orders[i];
      assert Backed(assets, o);
      orders := orders[i := o.(status := Canceled)];
      var asset, quote := o.pair.asset, o.pair.quote;
      if assets[asset].lock > 0.0 && o.side == Sell {
        Adjust(asset, o.quantity, -o.quantity);
      } else if assets[asset].lock == 0.0 {
        Adjust(quote, amount, -amount);
      }
    }

    method Order(exchangeId: int) returns (r: Option<Order>)
      ensures r == Found(orders, exchangeId)
    {
      for i := 0 to |orders|
        invariant Found(orders, exchangeId) == Found(orders[i..], exchangeId)
      {
        if orders[i].exchangeId == exchangeId { return Some(orders[i]); }
        assert orders[i..][1..] == orders[i + 1..];
      }
      r := None;
    }

    /** No index at all means that nothing is pending; the converse may fail for a while after a
        cancellation, because the index is only swept by the next candle of the pair. */
    method HasPendingOrders() returns (pending: bool)
      requires Valid()
      ensures pending <==> exists p :: p in pendingOrders && pendingOrders[p] != []
      ensures !pending ==> forall i :: 0 <= i < |orders| ==> orders[i].status != New
    {
      var keys := pendingOrders.Keys;
      while keys != {}
        invariant keys <= pendingOrders.Keys
        invariant forall p :: p in pendingOrders && p !in keys ==> pendingOrders[p] == []
      {
        var p :| p in keys;
        if |pendingOrders[p]| > 0 { return true; }
        keys := keys - {p};
      }
      pending := false;
    }

    // ----- matching -----

    /** Cancels the first other order of the group, if the order has one. */
    method CancelGroup(order: Order, time: int)
      modifies this`orders
      ensures View() == CancelSibling(old(View()), order, time)
    {
      if order.group.None? { return; }
      var j := 0;
      while j < |orders|
        invariant 0 <= j <= |orders| && orders == old(orders)
        invariant Sibling(orders, order, 0) == Sibling(orders, order, j)
      {
        if InGroup(orders[j], order) {
          orders := orders[j := orders[j].(status := Canceled, updatedAt := time)];
          break;
        }
        j := j + 1;
      }
    }

    method FillBuyOrder(i: nat, candle: Candle)
      requires WellFormed(View()) && i < |orders| && orders[i].status == New && orders[i].side == Buy
      modifies this`orders, this`assets, this`avgShortPrice, this`avgLongPrice
      ensures View() == FillBuy(old(View()), i, candle)
    {
      hide Average, Credit;
      var order := orders[i];
      assert Sane(order) && Backed(assets, order);
      var asset, quote := order.pair.asset, order.pair.quote;
      orders := orders[i := order.(status := Filled, updatedAt := candle.time)];
      UpdateAveragePrice(order.side, order.pair, order.quantity, order.price);
      Adjust(asset, order.quantity, 0.0);
      Adjust(quote, 0.0, -Worth(order.quantity, order.price));
    }

    method FillSellOrder(i: nat, candle: Candle, orderPrice: real)
      requires WellFormed(View()) && i < |orders| && orders[i].status == New && orders[i].side == Sell
      modifies this`orders, this`assets, this`avgShortPrice, this`avgLongPrice
      ensures View() == FillSell(old(View()), i, candle, orderPrice)
    {
      hide Average, Credit;
      var order := orders[i];
      assert Sane(order) && Backed(assets, order);
      var asset, quote := order.pair.asset, order.pair.quote;
      CancelGroup(order, candle.time);
      hide CancelSibling, WellFormed;
      orders := orders[i := orders[i].(status := Filled, updatedAt := candle.time)];
      UpdateAveragePrice(order.side, order.pair, order.quantity, orderPrice);
      Adjust(asset, 0.0, -order.quantity);
      Adjust(quote, Worth(order.quantity, orderPrice), 0.0);
    }

    /** Offers the candle to the order at position i and reports whether it is done. */
    method MatchOrder(i: nat, candle: Candle) returns (completed: bool)
      requires WellFormed(View()) && i < |orders| && orders[i].pair == candle.pair
      modifies this`orders, this`assets, this`avgShortPrice, this`avgLongPrice
      ensures View() == Match(old(View()), i, candle)
      ensures WellFormed(View()) && Evolves(old(orders), orders)
      ensures completed ==> orders[i].status != New
    {
      MatchKeepsShape(View(), i, candle);
      hide WellFormed, Evolves, FillBuy, FillSell;
      var order := orders[i];
      if order.status != New { return true; }
      completed := false;
      if order.side == Buy && order.price >= candle.close {
        FillBuyOrder(i, candle);
        FilledStays(old(View()), i, candle);
        completed := true;
      }
      if order.side == Sell {
        var orderPrice;
        if order.typ in {Limit, LimitMaker, TakeProfit, TakeProfitLimit} && candle.high >= order.price {
          orderPrice := order.price;
        } else if order.typ in {StopLossLimit, StopLoss} && order.stop.Some? && candle.low <= order.stop.value {
          orderPrice := order.stop.value;
        } else {
          return false;
        }
        FillSellOrder(i, candle, orderPrice);
        FilledStays(old(View()), i, candle);
        completed := true;
      }
    }

    /** Sweeps the completed positions out of the pair's index. */
    method RemoveCompletedOrders(pair: Pair, done: set<nat>)
      requires pair in pendingOrders && IndexCovers(orders, pendingOrders)
      requires forall k :: k in done && k < |orders| ==> orders[k].status != New
      modifies this`pendingOrders
      ensures IndexCovers(orders, pendingOrders)
    {
      assert Indexed(orders, pair, pendingOrders[pair]);
      var newPending := Without(pendingOrders[pair], done);
      assert forall n :: 0 <= n < |newPending| ==> newPending[n] in newPending;
      if |newPending| == 0 {
        pendingOrders := pendingOrders - {pair};
      } else {
        pendingOrders := pendingOrders[pair := newPending];
      }
      forall p | p in pendingOrders ensures Indexed(orders, p, pendingOrders[p]) {
        assert p != pair ==> Indexed(orders, p, old(pendingOrders)[p]);
      }
    }

    method OnCandle(candle: Candle)
      requires Valid()
      modifies this
      ensures Valid()
      ensures View() == Tick(old(View()), candle)
      ensures equityValues == if candle.complete
        then Record(old(equityValues), candle.time, EquityOf(View(), baseCoin)) else old(equityValues)
      ensures assetValues == if candle.complete
        then AssetCurves(old(assetValues), View(), baseCoin, candle.time) else old(assetValues)
    {
      lastCandle := lastCandle[candle.pair := candle];
      MatchPending(candle);
      UpdateEquityValues(candle);
    }

    /** The indexed pass has the effect of offering the candle to every order in creation order. */
    method MatchPending(candle: Candle)
      requires Valid()
      modifies this`orders, this`assets, this`avgShortPrice, this`avgLongPrice, this`pendingOrders
      ensures Valid()
      ensures View() == Scan(old(View()), candle, |old(orders)|)
    {
      ghost var b, all := View(), |orders|;
      if candle.pair !in pendingOrders {
        ScanSkips(b, candle, 0, all);
        return;
      }
      var pending := pendingOrders[candle.pair];
      assert Indexed(orders, candle.pair, pending);
      hide WellFormed;
      var done := MatchIndexed(candle, pending);
      EvolvingKeepsIndex(b.orders, orders, pendingOrders);
      hide IndexCovers;
      if done != {} { RemoveCompletedOrders(candle.pair, done); }
    }

    method MatchIndexed(candle: Candle, pending: seq<nat>) returns (done: set<nat>)
      requires WellFormed(View()) && Indexed(orders, candle.pair, pending)
      requires forall k :: 0 <= k < |orders| && orders[k].status == New && orders[k].pair == candle.pair ==>
        k in pending
      modifies this`orders, this`assets, this`avgShortPrice, this`avgLongPrice
      ensures View() == Scan(old(View()), candle, |old(orders)|)
      ensures WellFormed(View()) && Evolves(old(orders), orders)
      ensures forall k :: k in done && k < |orders| ==> orders[k].status != New
    {
      ghost var b, all := View(), |orders|;
      hide Match, WellFormed;
      done := {};
      ghost var upto: nat := 0;
      for n := 0 to |pending|
        invariant upto == if n == 0 then 0 else pending[n - 1] + 1
        invariant View() == Scan(b, candle, upto)
        invariant WellFormed(View()) && Evolves(b.orders, orders)
        invariant forall k :: k in done && k < |orders| ==> orders[k].status != New
      {
        var i := pending[n];
        SkipTo(b, candle, pending, n, i);
        ghost var before := orders;
        var completed := MatchOrder(i, candle);
        upto := i + 1;
        EvolvesTransitive(b.orders, before, orders);
        if completed { done := done + {i}; }
      }
      SkipTo(b, candle, pending, |pending|, all);
    }

    method UpdateEquityValues(candle: Candle)
      modifies this`equityValues, this`assetValues
      ensures equityValues == if candle.complete
        then Record(old(equityValues), candle.time, EquityOf(View(), baseCoin)) else old(equityValues)
      ensures assetValues == if candle.complete
        then AssetCurves(old(assetValues), View(), baseCoin, candle.time) else old(assetValues)
    {
      if !candle.complete { return; }
      var newValue := RecordAssets(candle.time);
      if baseCoin in assets {
        newValue := newValue + assets[baseCoin].lock + assets[baseCoin].free;
      }
      equityValues := AppendValue(equityValues, candle.time, newValue);
    }

    /** Records each coin's value and returns their total. */
    method RecordAssets(time: int) returns (total: real)
      modifies this`assetValues
      ensures total == Total(View(), baseCoin, assets.Keys)
      ensures assetValues == AssetCurves(old(assetValues), View(), baseCoin, time)
    {
      hide Line, Total, CurvesBut, AssetCurves;
      ghost var b := View();
      total := 0.0;
      var coins := assets.Keys;
      NoCurveYet(assetValues, b, baseCoin, time);
      while coins != {}
        invariant coins <= assets.Keys
        invariant total + Total(b, baseCoin, coins) == Total(b, baseCoin, assets.Keys)
        invariant CurvesBut(assetValues, old(assetValues), b, baseCoin, time, coins)
      {
        var asset :| asset in coins;
        TotalSplits(b, baseCoin, coins, asset);
        NextCurve(assetValues, old(assetValues), b, baseCoin, time, coins, asset);
        var line := RecordAsset(asset, time);
        total := total + line;
        coins := coins - {asset};
      }
      AllCurves(assetValues, old(assetValues), b, baseCoin, time);
      NothingLeft(b, baseCoin);
    }

    method RecordAsset(asset: string, time: int) returns (line: real)
      requires asset in assets
      modifies this`assetValues
      ensures line == Line(View(), baseCoin, asset)
      ensures assetValues == old(assetValues)
        [asset := Record(CurveOf(old(assetValues), asset), time, AmountAtClose(View(), baseCoin, asset))]
    {
      var amount := assets[asset].free + assets[asset].lock;
      var pair := Pair(asset, baseCoin);
      var close := if pair in lastCandle then lastCandle[pair].close else 0.0;
      line := LineOf(amount, pair, close);
      var curve := AppendValue(CurveOf(assetValues, asset), time, Worth(amount, close));
      assetValues := assetValues[asset := curve];
    }

    /** What a coin is worth in the base coin: at the close, or at its liquidation value when short. */
    method LineOf(amount: real, pair: Pair, close: real) returns (line: real)
      ensures line == HoldingValue(amount, Lookup(avgShortPrice, pair), close)
    {
      if amount < 0.0 {
        var v := -amount;
        line := 2.0 * Worth(v, Lookup(avgShortPrice, pair)) - Worth(v, close);
      } else {
        line := Worth(amount, close);
      }
    }

    method AppendValue(values: seq<AssetValue>, time: int, value: real) returns (r: seq<AssetValue>)
      ensures r == Record(values, time, value)
    {
      var n := |values|;
      if n > 0 && values[n - 1].time == time {
        r := values[n - 1 := AssetValue(time, value)];
      } else {
        r := values + [AssetValue(time, value)];
      }
    }

    /** Callers place positive sizes (or a size of zero, which is refused), in pairs of two coins. */
    ghost predicate Tradable(pair: Pair, size: real) { size >= 0.0 && pair.asset != pair.quote }
  }

  /** Orders that stop being pending do not disturb the index. */
  lemma EvolvingKeepsIndex(a: seq<Order>, b: seq<Order>, pending: map<Pair, seq<nat>>)
    requires IndexCovers(a, pending) && Evolves(a, b)
    ensures IndexCovers(b, pending)
  {
    forall p | p in pending ensures Indexed(b, p, pending[p]) {
      assert Indexed(a, p, pending[p]);
    }
  }

  lemma AppendedIndex(orders: seq<Order>, order: Order, pending: map<Pair, seq<nat>>)
    requires IndexCovers(orders, pending)
    ensures var index := (if order.pair in pending then pending[order.pair] else []) + [|orders|];
      var r := pending[order.pair := index];
      IndexCovers(orders + [order], r) && IndexGrows(pending, r)
  {
    var before := if order.pair in pending then pending[order.pair] else [];
    var index := before + [|orders|];
    var r, all := pending[order.pair := index], orders + [order];
    hide StrictlyIncreasing;
    forall p | p in r ensures Indexed(all, p, r[p]) {
      if p in pending { LongerHistory(orders, order, p, pending[p]); }
      if p == order.pair {
        if p !in pending { NothingIndexed(all, p); }
        NextIndexed(all, p, before);
      }
    }
    forall k | 0 <= k < |all| && all[k].status == New ensures all[k].pair in r && k in r[all[k].pair] {
      if k == |orders| { assert index[|index| - 1] == k; }
    }
  }

  lemma NothingIndexed(orders: seq<Order>, p: Pair)
    ensures Indexed(orders, p, [])
  {
  }

  lemma LongerHistory(orders: seq<Order>, order: Order, p: Pair, index: seq<nat>)
    requires Indexed(orders, p, index)
    ensures Indexed(orders + [order], p, index) && forall n :: 0 <= n < |index| ==> index[n] < |orders|
  {
  }

  lemma NextIndexed(all: seq<Order>, p: Pair, index: seq<nat>)
    requires all != [] && all[|all|-1].pair == p && Indexed(all, p, index)
    requires forall n :: 0 <= n < |index| ==> index[n] < |all| - 1
    ensures Indexed(all, p, index + [|all| - 1])
  {
  }

  lemma CancellingKeepsIndex(a: seq<Order>, i: nat, pending: map<Pair, seq<nat>>)
    requires IndexCovers(a, pending) && i < |a|
    ensures IndexCovers(a[i := a[i].(status := Canceled)], pending)
  {
    forall p | p in pending ensures Indexed(a[i := a[i].(status := Canceled)], p, pending[p]) {
      assert Indexed(a, p, pending[p]);
    }
  }

  lemma FilledStays(b: Book, i: nat, c: Candle)
    requires WellFormed(b) && i < |b.orders| && b.orders[i].status == New
    ensures b.orders[i].side == Buy ==> FillBuy(b, i, c).orders[i].status == Filled
    ensures forall price :: b.orders[i].side == Sell ==> FillSell(b, i, c, price).orders[i].status == Filled
  {
    if b.orders[i].side == Sell {
      forall price ensures FillSell(b, i, c, price).orders[i].status == Filled {
        FillSellOrders(b, i, c, price);
      }
    }
  }

  /** Between two neighbours in the index nothing is pending for the pair. */
  lemma SkipTo(b: Book, c: Candle, pending: seq<nat>, n: nat, next: nat)
    requires WellFormed(b) && n <= |pending| && Indexed(b.orders, c.pair, pending)
    requires forall k :: 0 <= k < |b.orders| && b.orders[k].status == New && b.orders[k].pair == c.pair ==> k in pending
    requires next == if n == |pending| then |b.orders| else pending[n]
    ensures var upto := if n == 0 then 0 else pending[n - 1] + 1;
      upto <= next && Scan(b, c, next) == Scan(b, c, upto)
  {
    var upto := if n == 0 then 0 else pending[n - 1] + 1;
    forall k | upto <= k < next ensures b.orders[k].pair != c.pair || b.orders[k].status != New {
      if k in pending {
        var m :| 0 <= m < |pending| && pending[m] == k;
        assert false;
      }
    }
    ScanSkips(b, c, upto, next);
  }

  lemma FilledKeepsIndex(a: seq<Order>, o: Order, pending: map<Pair, seq<nat>>)
    requires IndexCovers(a, pending) && o.status != New
    ensures IndexCovers(a + [o], pending)
  {
    forall p | p in pending ensures Indexed(a + [o], p, pending[p]) {
      assert Indexed(a, p, pending[p]);
    }
  }

  predicate IsDraft(o: Order, status: Status, pair: Pair, size: real) {
    o.id == 0 && o.status == status && o.pair == pair && o.quantity == size
  }

  /** A request is refused for a zero size, or else exactly when the funds do not cover it. */
  ghost predicate Reply<T>(r: Result<T>, size: real, b: Book, side: Side, pair: Pair, price: real) {
    && (r == Err(InvalidQuantity) <==> size == 0.0)
    && (r.Ok? <==> size != 0.0 && Accepts(b, side, pair, size, price))
  }

  // ----- the order in which balances are adjusted does not matter -----

  lemma CreditTwice(b: Book, a: string, f1: real, l1: real, f2: real, l2: real)
    ensures Credit(Credit(b, a, f1, l1), a, f2, l2) == Credit(b, a, f1 + f2, l1 + l2)
  {
    assert b.assets[a := Asset(Free(b, a) + f1, Lock(b, a) + l1)]
                   [a := Asset(Free(b, a) + f1 + f2, Lock(b, a) + l1 + l2)]
        == b.assets[a := Asset(Free(b, a) + (f1 + f2), Lock(b, a) + (l1 + l2))];
  }

  lemma CreditSwap(b: Book, a: string, f1: real, l1: real, c: string, f2: real, l2: real)
    requires a != c
    ensures Credit(Credit(b, a, f1, l1), c, f2, l2) == Credit(Credit(b, c, f2, l2), a, f1, l1)
  {
    assert Credit(Credit(b, a, f1, l1), c, f2, l2).assets == Credit(Credit(b, c, f2, l2), a, f1, l1).assets;
  }

  lemma CreditNothing(b: Book, a: string)
    requires a in b.assets
    ensures Credit(b, a, 0.0, 0.0) == b
  {
    assert Credit(b, a, 0.0, 0.0).assets == b.assets;
  }

  lemma AverageAfterCredit(b: Book, side: Side, pair: Pair, amount: real, value: real, c: string, f: real, l: real)
    requires c != pair.asset
    ensures Average(Credit(b, c, f, l), side, pair, amount, value)
         == Credit(Average(b, side, pair, amount, value), c, f, l)
  {
  }

  lemma WorthOfNothing(value: real)
    ensures Worth(0.0, value) == 0.0
  {
  }

  lemma SellLockSteps(b: Book, pair: Pair, amount: real, value: real, held: real, cost: real)
    requires pair.asset != pair.quote
    requires held == MinReal(MaxReal(Free(b, pair.asset), 0.0), amount) && cost == Worth(amount - held, value)
    ensures LockSell(b, pair, amount, value) ==
      Credit(Credit(Credit(Credit(b, pair.asset, -held, 0.0), pair.quote, -cost, 0.0),
                    pair.asset, 0.0, held), pair.quote, 0.0, cost)
  {
    hide Credit, Worth, Liquid;
    var a, q := pair.asset, pair.quote;
    CreditSwap(Credit(b, a, -held, 0.0), q, -cost, 0.0, a, 0.0, held);
    CreditTwice(b, a, -held, 0.0, 0.0, held);
    CreditTwice(Credit(b, a, -held, held), q, -cost, 0.0, 0.0, cost);
  }

  lemma ReduceSteps(b: Book, pair: Pair, amount: real, value: real, held: real)
    requires pair.asset != pair.quote && pair.asset in b.assets && pair.quote in b.assets
    requires held == MinReal(MaxReal(Free(b, pair.asset), 0.0), amount) && (held == amount || value <= 0.0)
    requires held <= amount && (amount <= Free(b, pair.asset) || value <= 0.0)
    ensures var taken := Credit(Credit(b, pair.asset, -held, 0.0), pair.quote, -Worth(amount - held, value), 0.0);
      FillMarketSell(b, pair, amount, value)
      == Credit(Average(taken, Sell, pair, amount, value), pair.quote, Worth(amount, value), 0.0)
  {
    hide Average, Credit, Worth, MinReal, MaxReal;
    var one, q, cost := Credit(b, pair.asset, -held, 0.0), pair.quote, Worth(amount - held, value);
    AverageAfterCredit(one, Sell, pair, amount, value, q, -cost, 0.0);
    CreditMore(Average(one, Sell, pair, amount, value), q, -cost, Worth(amount, value));
    WorthOfRest(amount, held, value);
  }

  lemma WorthOfRest(amount: real, held: real, value: real)
    ensures -Worth(amount - held, value) + Worth(amount, value) == Worth(held, value)
  {
  }

  lemma CreditMore(b: Book, a: string, f1: real, f2: real)
    ensures Credit(Credit(b, a, f1, 0.0), a, f2, 0.0) == Credit(b, a, f1 + f2, 0.0)
  {
    assert Credit(Credit(b, a, f1, 0.0), a, f2, 0.0).assets == Credit(b, a, f1 + f2, 0.0).assets;
  }

  lemma CrossSteps(b: Book, pair: Pair, amount: real, value: real, held: real)
    requires pair.asset != pair.quote && pair.asset in b.assets && pair.quote in b.assets
    requires Free(b, pair.asset) < amount && held == MaxReal(Free(b, pair.asset), 0.0) && value > 0.0
    ensures var cost := Worth(amount - held, value);
      var taken := Credit(Credit(b, pair.asset, -held, 0.0), pair.quote, -cost, 0.0);
      FillMarketSell(b, pair, amount, value)
      == Credit(Average(taken, Sell, pair, amount, value), pair.asset, -amount, 0.0)
  {
    hide Average, Credit, Worth;
    var a, q, cost := pair.asset, pair.quote, Worth(amount - held, value);
    var one := Credit(b, a, -held, 0.0);
    AverageAfterCredit(one, Sell, pair, amount, value, q, -cost, 0.0);
    CreditSwap(Average(one, Sell, pair, amount, value), q, -cost, 0.0, a, -amount, 0.0);
    if Free(b, a) <= 0.0 { CreditNothing(b, a); }
  }

  lemma CostIsPositive(rest: real, value: real)
    requires rest >= 0.0
    ensures Worth(rest, value) > 0.0 <==> rest > 0.0 && value > 0.0
  {
  }

  lemma SellFillSteps(b: Book, pair: Pair, amount: real, value: real, held: real, cost: real)
    requires amount > 0.0 && pair.asset != pair.quote && pair.asset in b.assets && pair.quote in b.assets
    requires held == MinReal(MaxReal(Free(b, pair.asset), 0.0), amount) && cost == Worth(amount - held, value)
    ensures var taken := Credit(Credit(b, pair.asset, -held, 0.0), pair.quote, -cost, 0.0);
      FillMarketSell(b, pair, amount, value) ==
        if cost > 0.0 then Credit(Average(taken, Sell, pair, amount, value), pair.asset, -amount, 0.0)
        else Credit(Average(taken, Sell, pair, amount, value), pair.quote, Worth(amount, value), 0.0)
  {
    hide Average, Credit, Worth, FillMarketSell;
    WorthOfNothing(value);
    CostIsPositive(amount - held, value);
    if amount <= Free(b, pair.asset) || value <= 0.0 {
      ReduceSteps(b, pair, amount, value, held);
    } else {
      CrossSteps(b, pair, amount, value, held);
    }
  }

  lemma BuyLockSteps(b: Book, pair: Pair, amount: real, value: real, covered: real, cost: real)
    requires pair.asset != pair.quote
    requires covered == MinReal(-MinReal(Free(b, pair.asset), 0.0), amount)
    requires cost == Worth(amount - covered, value) - Liquid(b, pair, value)
    ensures LockBuy(b, pair, amount, value) ==
      Credit(Credit(Credit(Credit(b, pair.asset, covered, 0.0), pair.quote, -cost, 0.0),
                    pair.asset, 0.0, covered), pair.quote, 0.0, cost)
  {
    hide Credit, Worth, Liquid;
    var a, q := pair.asset, pair.quote;
    CreditSwap(Credit(b, a, covered, 0.0), q, -cost, 0.0, a, 0.0, covered);
    CreditTwice(b, a, covered, 0.0, 0.0, covered);
    CreditTwice(Credit(b, a, covered, covered), q, -cost, 0.0, 0.0, cost);
  }

  lemma NothingToLiquidate(b: Book, pair: Pair, value: real)
    requires Free(b, pair.asset) >= 0.0
    ensures Liquid(b, pair, value) == 0.0
  {
  }

  lemma ExtendSteps(b: Book, pair: Pair, amount: real, value: real)
    requires pair.asset != pair.quote && pair.asset in b.assets && pair.quote in b.assets
    requires Free(b, pair.asset) >= 0.0
    ensures var taken := Credit(Credit(b, pair.asset, 0.0, 0.0), pair.quote, -Worth(amount, value), 0.0);
      FillMarketBuy(b, pair, amount, value)
      == Credit(Average(taken, Buy, pair, amount, value), pair.asset, amount, 0.0)
  {
    hide Average, Credit, Worth;
    var a, q, cost := pair.asset, pair.quote, Worth(amount, value);
    CreditNothing(b, a);
    AverageAfterCredit(b, Buy, pair, amount, value, q, -cost, 0.0);
    CreditSwap(Average(b, Buy, pair, amount, value), q, -cost, 0.0, a, amount, 0.0);
  }

  lemma CoverSteps(b: Book, pair: Pair, amount: real, value: real, covered: real)
    requires pair.asset != pair.quote && pair.asset in b.assets && pair.quote in b.assets
    requires Free(b, pair.asset) < 0.0 && covered == MinReal(-Free(b, pair.asset), amount)
    ensures var cost := Worth(amount - covered, value) - Liquid(b, pair, value);
      var taken := Credit(Credit(b, pair.asset, covered, 0.0), pair.quote, -cost, 0.0);
      FillMarketBuy(b, pair, amount, value)
      == Credit(Average(taken, Buy, pair, amount, value), pair.asset, amount - covered, 0.0)
  {
    hide Average, Credit, Worth, Liquid, MinReal;
    var a, q, cost := pair.asset, pair.quote, Worth(amount - covered, value) - Liquid(b, pair, value);
    var one := Credit(b, a, covered, 0.0);
    AverageAfterCredit(one, Buy, pair, amount, value, q, -cost, 0.0);
    CreditSwap(Average(one, Buy, pair, amount, value), q, -cost, 0.0, a, amount - covered, 0.0);
  }

  lemma BuyFillSteps(b: Book, pair: Pair, amount: real, value: real, covered: real, cost: real)
    requires amount > 0.0 && pair.asset != pair.quote && pair.asset in b.assets && pair.quote in b.assets
    requires covered == MinReal(-MinReal(Free(b, pair.asset), 0.0), amount)
    requires cost == Worth(amount - covered, value) - Liquid(b, pair, value)
    ensures var taken := Credit(Credit(b, pair.asset, covered, 0.0), pair.quote, -cost, 0.0);
      FillMarketBuy(b, pair, amount, value)
      == Credit(Average(taken, Buy, pair, amount, value), pair.asset, amount - covered, 0.0)
  {
    hide Average, Credit, Worth, Liquid, FillMarketBuy;
    if Free(b, pair.asset) >= 0.0 {
      NothingToLiquidate(b, pair, value);
      ExtendSteps(b, pair, amount, value);
    } else {
      CoverSteps(b, pair, amount, value, covered);
    }
  }
}
