/** Additive quantities of an order history. Every balance the engine keeps is compared with one
    of these sums, so a step that changes one order changes each ledger by that order alone. */
module Ledger {
  import opened Types

  datatype Measure =
    | LockedAsset(asset: string) // asset reserved by pending sells, each OCO group once
    | LockedQuote(quote: string) // coin reserved by pending buys
    | Flow(coin: string)         // what replaying the filled orders at their price moves
    | Slip(coin: string)         // stop price minus recorded price, over filled stop sells
    | Signed(pair: Pair)         // signed quantity of the filled orders of a pair
    | Paid(pair: Pair)           // worth of the filled orders of a pair at the price they were filled at
    | Spent(pair: Pair)          // worth of the filled buys of a pair

  /** The contribution of one order. */
  function Weight(m: Measure, o: Order): real {
    match m
    case LockedAsset(a) =>
      if o.status == New && o.side == Sell && o.pair.asset == a && o.typ != StopLoss then o.quantity else 0.0
    case LockedQuote(q) =>
      if o.status == New && o.side == Buy && o.pair.quote == q then Worth(o.quantity, o.price) else 0.0
    case Flow(c) =>
      if o.status != Filled then 0.0 else
      (if o.pair.asset == c then SignedQuantity(o) else 0.0)
      - (if o.pair.quote == c then Worth(SignedQuantity(o), o.price) else 0.0)
    case Slip(c) =>
      if o.status == Filled && o.side == Sell && o.pair.quote == c && IsStop(o) && o.stop.Some?
      then Worth(o.quantity, o.stop.value) - Worth(o.quantity, o.price) else 0.0
    case Signed(p) =>
      if o.status == Filled && o.pair == p then SignedQuantity(o) else 0.0
    case Paid(p) =>
      if o.status == Filled && o.pair == p then Worth(o.quantity, FillPrice(o)) else 0.0
    case Spent(p) =>
      if o.status == Filled && o.pair == p && o.side == Buy then Worth(o.quantity, o.price) else 0.0
  }

  function SignedQuantity(o: Order): real { if o.side == Buy then o.quantity else -o.quantity }

  /** The price a fill is accounted at once a position is open. */
  function FillPrice(o: Order): real { if IsStop(o) && o.stop.Some? then o.stop.value else o.price }

  predicate IsStop(o: Order) { o.typ == StopLoss || o.typ == StopLossLimit }

  function Sum(m: Measure, orders: seq<Order>): real {
    if orders == [] then 0.0 else Sum(m, orders[..|orders|-1]) + Weight(m, orders[|orders|-1])
  }

  lemma SumLast(m: Measure, orders: seq<Order>)
    requires orders != []
    ensures Sum(m, orders) == Sum(m, orders[..|orders|-1]) + Weight(m, orders[|orders|-1])
  {
    hide Weight;
  }

  lemma SumAppend(m: Measure, orders: seq<Order>, o: Order)
    ensures Sum(m, orders + [o]) == Sum(m, orders) + Weight(m, o)
  {
    hide Weight;
    assert (orders + [o])[..|orders|] == orders;
  }

  lemma {:induction false} SumInParts(m: Measure, a: seq<Order>, b: seq<Order>)
    ensures Sum(m, a + b) == Sum(m, a) + Sum(m, b)
  {
    hide Weight;
    if b == [] {
      assert a + b == a;
    } else {
      var init, o := b[..|b|-1], b[|b|-1];
      SumInParts(m, a, init);
      assert a + b == a + init + [o];
      SumAppend(m, a + init, o);
    }
  }

  lemma {:induction false} SumUpdate(m: Measure, orders: seq<Order>, i: nat, o: Order)
    requires i < |orders|
    ensures Sum(m, orders[i := o]) == Sum(m, orders) - Weight(m, orders[i]) + Weight(m, o)
  {
    var last := |orders| - 1;
    if i == last {
      assert orders[i := o][..last] == orders[..last];
    } else {
      assert orders[i := o][..last] == orders[..last][i := o];
      SumUpdate(m, orders[..last], i, o);
    }
  }

  lemma {:induction false} SumRemove(m: Measure, orders: seq<Order>, j: nat)
    requires j < |orders|
    ensures Sum(m, orders) == Weight(m, orders[j]) + Sum(m, orders[..j] + orders[j+1..])
  {
    hide Weight;
    var last := |orders| - 1;
    var rest := orders[..j] + orders[j+1..];
    if j == last {
      assert rest == orders[..last];
    } else {
      var init := orders[..last];
      SumRemove(m, init, j);
      assert rest == init[..j] + init[j+1..] + [orders[last]];
      SumAppend(m, init[..j] + init[j+1..], orders[last]);
    }
  }

  lemma {:induction false} SumNonNegative(m: Measure, orders: seq<Order>)
    requires forall i :: 0 <= i < |orders| ==> Weight(m, orders[i]) >= 0.0
    ensures Sum(m, orders) >= 0.0
    ensures forall i :: 0 <= i < |orders| ==> Weight(m, orders[i]) <= Sum(m, orders)
  {
    if orders != [] {
      var init := orders[..|orders|-1];
      SumNonNegative(m, init);
      assert forall i :: 0 <= i < |init| ==> init[i] == orders[i];
    }
  }

  lemma {:induction false} SumAgrees(m: Measure, a: seq<Order>, b: seq<Order>)
    requires |a| == |b|
    requires forall i :: 0 <= i < |a| ==> Weight(m, a[i]) == Weight(m, b[i])
    ensures Sum(m, a) == Sum(m, b)
  {
    if a != [] {
      SumAgrees(m, a[..|a|-1], b[..|b|-1]);
    }
  }
}
