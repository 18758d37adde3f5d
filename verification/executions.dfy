/** When the pending orders of a backtest are filled. */
module Executions {
  import opened Types
  import opened WalletSpec
  import opened WalletShape
  import opened Ledger
  import opened LongOnly
  import Funding
  import opened Matching
  import opened Backtests

  // ----- requests -----

  lemma PlacingKeepsShape(b: Book, o: Order, assets: map<string, Asset>, avgLong: map<Pair, real>,
                          avgShort: map<Pair, real>)
    requires WellFormed(b) && Sane(o) && o.group.None? && o.exchangeId == b.counter + 1
    requires Backed(assets, o) && b.assets.Keys <= assets.Keys
    ensures WellFormed(Book(b.counter + 1, assets, b.orders + [o], avgLong, avgShort, b.last))
  {
    hide WellFormed;
    AppendKeepsShape(b, Book(b.counter + 1, assets, b.orders + [o], avgLong, avgShort, b.last), o);
  }

  lemma GroupKeepsShape(b: Book, r: Book, maker: Order, stopper: Order)
    requires WellFormed(b) && b.assets.Keys <= r.assets.Keys && Backed(r.assets, maker) && stopper.pair == maker.pair
    requires Sane(maker) && Sane(stopper) && maker.status == stopper.status == New && maker.side == stopper.side
    requires maker.exchangeId == b.counter + 2 && stopper.exchangeId == b.counter + 3 && r.counter == b.counter + 3
    requires maker.group == stopper.group == Some(b.counter + 1) && r.orders == b.orders + [maker] + [stopper]
    ensures WellFormed(r)
  {
    var mid := r.(orders := b.orders + [maker], counter := b.counter + 2);
    FreshGroup(b, maker);
    FreshGroup(b, stopper);
    hide WellFormed;
    AppendKeepsShape(b, mid, maker);
    AppendKeepsShape(mid, r, stopper);
  }

  /** Any request that can be made keeps the book well-formed and changes no order but the one it cancels. */
  lemma RequestKeepsShape(b: Book, cmd: Command)
    requires WellFormed(b) && Doable(b, cmd)
    ensures var r := Step(b, cmd);
      && WellFormed(r) && |b.orders| <= |r.orders|
      && forall i :: 0 <= i < |b.orders| ==>
           r.orders[i] == if cmd == Withdraw(i) then b.orders[i].(status := Canceled) else b.orders[i]
  {
    var r := Step(b, cmd);
    match cmd
    case Withdraw(i) =>
      CancelKeepsShape(b, i);
      CancelledOrders(b, i);
      hide CancelOrder, WellFormed;
    case OcoOrder(p, size, price, stop, stopLimit) =>
      TouchKeepsShape(b, p);
      hide Accepts, WellFormed, Fund;
      if size != 0.0 && Accepts(b, Sell, p, size, price) {
        var n := |b.orders|;
        GroupKeepsShape(b, r, r.orders[n], r.orders[n + 1]);
      }
    case _ =>
      SimpleRequestKeepsShape(b, cmd);
  }

  lemma SimpleRequestKeepsShape(b: Book, cmd: Command)
    requires WellFormed(b) && Doable(b, cmd) && !cmd.Withdraw? && !cmd.OcoOrder?
    ensures var r := Step(b, cmd);
      && WellFormed(r) && |b.orders| <= |r.orders|
      && forall i :: 0 <= i < |b.orders| ==> r.orders[i] == b.orders[i]
  {
    hide Accepts, WellFormed, Fund, Sane, Backed;
    match cmd
    case LimitOrder(side, p, size, price) => LimitKeepsShape(b, side, p, size, price);
    case StopOrder(p, size, price) => StopKeepsShape(b, p, size, price);
    case MarketOrder(side, p, size) => MarketKeepsShape(b, side, p, size);
  }

  lemma LimitKeepsShape(b: Book, side: Side, p: Pair, size: real, price: real)
    requires WellFormed(b) && size >= 0.0 && p.asset != p.quote
    ensures WellFormed(PlaceLimit(b, side, p, size, price)) && b.orders <= PlaceLimit(b, side, p, size, price).orders
  {
    hide Accepts, WellFormed, Fund;
    TouchKeepsShape(b, p);
    var r, n := PlaceLimit(b, side, p, size, price), |b.orders|;
    if |r.orders| > n { PlacingKeepsShape(b, r.orders[n], r.assets, r.avgLong, r.avgShort); }
  }

  lemma StopKeepsShape(b: Book, p: Pair, size: real, price: real)
    requires WellFormed(b) && size >= 0.0 && p.asset != p.quote
    ensures WellFormed(PlaceStop(b, p, size, price)) && b.orders <= PlaceStop(b, p, size, price).orders
  {
    hide Accepts, WellFormed, Fund;
    TouchKeepsShape(b, p);
    var r, n := PlaceStop(b, p, size, price), |b.orders|;
    if |r.orders| > n { PlacingKeepsShape(b, r.orders[n], r.assets, r.avgLong, r.avgShort); }
  }

  lemma MarketKeepsShape(b: Book, side: Side, p: Pair, size: real)
    requires WellFormed(b) && size >= 0.0 && p.asset != p.quote
    ensures WellFormed(PlaceMarket(b, side, p, size)) && b.orders <= PlaceMarket(b, side, p, size).orders
  {
    hide Accepts, WellFormed, Fund;
    TouchKeepsShape(b, p);
    var r, n := PlaceMarket(b, side, p, size), |b.orders|;
    if |r.orders| > n { PlacingKeepsShape(b, r.orders[n], r.assets, r.avgLong, r.avgShort); }
  }

  /** No request fills an order that was there before it, and only a withdrawal of it changes it. */
  lemma {:induction false} RequestsFillNothing(b: Book, cmds: seq<Command>)
    requires WellFormed(b)
    ensures var r := ObeyAll(b, cmds);
      && WellFormed(r) && |b.orders| <= |r.orders|
      && forall i :: 0 <= i < |b.orders| ==>
           r.orders[i] == b.orders[i]
           || (r.orders[i] == b.orders[i].(status := Canceled) && b.orders[i].status == New && Withdraw(i) in cmds)
  {
    hide WellFormed, Step;
    if cmds != [] {
      var init, cmd := cmds[..|cmds|-1], cmds[|cmds|-1];
      RequestsFillNothing(b, init);
      assert init + [cmd] == cmds;
      if Doable(ObeyAll(b, init), cmd) {
        RequestKeepsShape(ObeyAll(b, init), cmd);
        if cmd.Withdraw? { WithdrawsPending(ObeyAll(b, init), cmd); }
        hide Doable;
      }
    }
  }

  lemma WithdrawsPending(b: Book, cmd: Command)
    requires Doable(b, cmd) && cmd.Withdraw?
    ensures cmd.index < |b.orders| && b.orders[cmd.index].status == New
  {
  }

  // ----- candles -----

  predicate Reaches(c: Candle, o: Order) { c.pair == o.pair && Meets(o, c) }

  /** Order o is still the one it was, but for its status and update time. */
  predicate Same(o: Order, r: Order) { r == o.(status := r.status, updatedAt := r.updatedAt) }

  /** In one turn a pending order is filled only if the candle reaches it, and stays pending only if not. */
  lemma TurnFillsWhatItReaches(b: Book, called: bool, c: Candle, cmds: seq<Command>, i: nat)
    requires WellFormed(b) && i < |b.orders|
    ensures var r := Turn(b, called, c, cmds);
      && WellFormed(r) && i < |r.orders| && Same(b.orders[i], r.orders[i])
      && (b.orders[i].status == New && r.orders[i].status == Filled ==> Reaches(c, b.orders[i]))
      && (r.orders[i].status == New ==> b.orders[i].status == New && !Reaches(c, b.orders[i]))
      && (b.orders[i].status != New ==> r.orders[i].status == b.orders[i].status)
  {
    TickOutcome(b, c);
    if b.orders[i].status == New { CandleFillsWhatItReaches(b, c, i); }
    RequestsFillNothing(Tick(b, c), cmds);
    hide WellFormed, Tick, ObeyAll, Rivalled, Meets;
  }

  lemma {:induction false} ReplayKeepsShape(b: Book, stream: seq<Candle>, setups: map<Pair, Setup>,
                                            script: nat -> seq<Command>)
    requires WellFormed(b)
    ensures WellFormed(Replay(b, stream, setups, script))
    ensures |b.orders| <= |Replay(b, stream, setups, script).orders|
  {
    hide WellFormed, Tick, ObeyAll, Calls;
    if stream != [] {
      var init, c := stream[..|stream|-1], stream[|stream|-1];
      ReplayKeepsShape(b, init, setups, script);
      var before := Replay(b, init, setups, script);
      TickOutcome(before, c);
      RequestsFillNothing(Tick(before, c), script(|init|));
    }
  }

  /** Candle k is the first from n on that reaches the order. */
  ghost predicate FirstReached(stream: seq<Candle>, n: nat, k: nat, o: Order) {
    && n <= k < |stream| && Reaches(stream[k], o)
    && forall m :: n <= m < k ==> !Reaches(stream[m], o)
  }

  /** In a whole backtest, whatever the strategies ask for: an order that was pending after n candles keeps its terms.
      It is still pending at the end only if no later candle reached it, and it is filled only by the first later
      candle that reached it; so no stop fills while all lows stay above it. */
  lemma {:induction false} FilledByTheFirstCandle(
    b: Book, stream: seq<Candle>, setups: map<Pair, Setup>, script: nat -> seq<Command>, n: nat, i: nat)
    requires WellFormed(b) && n <= |stream|
    requires i < |Replay(b, stream[..n], setups, script).orders|
    requires Replay(b, stream[..n], setups, script).orders[i].status == New
    ensures i < |Replay(b, stream, setups, script).orders|
    ensures var o, r := Replay(b, stream[..n], setups, script).orders[i], Replay(b, stream, setups, script).orders[i];
      && Same(o, r)
      && (r.status == New ==> forall k :: n <= k < |stream| ==> !Reaches(stream[k], o))
      && (r.status == Filled ==> exists k: nat :: FirstReached(stream, n, k, o))
  {
    hide WellFormed, Turn, Calls, Meets;
    if n == |stream| {
      assert stream[..n] == stream;
    } else {
      var init, c := stream[..|stream|-1], stream[|stream|-1];
      assert init[..n] == stream[..n];
      FilledByTheFirstCandle(b, init, setups, script, n, i);
      ReplayKeepsShape(b, init, setups, script);
      var o, before := Replay(b, stream[..n], setups, script).orders[i], Replay(b, init, setups, script);
      TurnFillsWhatItReaches(before, Calls(init, c, setups), c, script(|init|), i);
      assert Reaches(c, before.orders[i]) == Reaches(c, o) by { SameTerms(o, before.orders[i], c); }
      if Replay(b, stream, setups, script).orders[i].status == Filled {
        if before.orders[i].status == New {
          assert FirstReached(stream, n, |init|, o);
        } else {
          var k: nat :| FirstReached(init, n, k, o);
          LongerStream(stream, n, k, o);
        }
      }
    }
  }

  lemma LongerStream(stream: seq<Candle>, n: nat, k: nat, o: Order)
    requires stream != [] && FirstReached(stream[..|stream|-1], n, k, o)
    ensures FirstReached(stream, n, k, o)
  {
    var init := stream[..|stream|-1];
    hide Reaches;
    forall m | n <= m < k ensures !Reaches(stream[m], o) { assert init[m] == stream[m]; }
  }

  lemma SameTerms(o: Order, r: Order, c: Candle)
    requires Same(o, r)
    ensures Reaches(c, r) == Reaches(c, o)
  {
  }

  // ----- exits -----

  /** Without a withdrawal, a pending order without a group is filled exactly if the candle reaches it. */
  lemma TurnOfOne(b: Book, called: bool, c: Candle, cmds: seq<Command>, i: nat)
    requires WellFormed(b) && i < |b.orders| && b.orders[i].status == New && b.orders[i].group.None?
    requires Withdraw(i) !in cmds
    ensures i < |Turn(b, called, c, cmds).orders|
    ensures Turn(b, called, c, cmds).orders[i].status == if Reaches(c, b.orders[i]) then Filled else New
  {
    TickOutcome(b, c);
    CandleFillsWhatItReaches(b, c, i);
    RequestsFillNothing(Tick(b, c), cmds);
    hide WellFormed, Tick, ObeyAll, Meets;
  }

  /** Without a withdrawal, of the two pending sells of a group the earlier one is filled if the candle reaches it,
      otherwise the later one if the candle reaches that, and the other is cancelled. */
  lemma TurnOfGroup(b: Book, called: bool, c: Candle, cmds: seq<Command>, i: nat, j: nat)
    requires WellFormed(b) && i < j < |b.orders| && PendingGroup(b.orders, i, j)
    requires Withdraw(i) !in cmds && Withdraw(j) !in cmds
    ensures var r := Turn(b, called, c, cmds).orders;
      j < |r| && r[i].status == GroupStatus(c, b.orders[i], b.orders[j])
      && r[j].status == if Reaches(c, b.orders[i]) then Canceled
                        else if Reaches(c, b.orders[j]) then Filled else New
  {
    TickOutcome(b, c);
    RivalIsUnique(b, c, i, j, j);
    OnlyRival(b, c, i, j, i);
    OnlyRival(b, c, i, j, |b.orders|);
    OnlyRival(b, c, j, i, j);
    OnlyRival(b, c, j, i, |b.orders|);
    CandleFillsWhatItReaches(b, c, i);
    CandleFillsWhatItReaches(b, c, j);
    RequestsFillNothing(Tick(b, c), cmds);
    hide WellFormed, Tick, ObeyAll, Meets, Rivalled, InGroup;
  }

  predicate PendingGroup(orders: seq<Order>, i: nat, j: nat)
    requires i < |orders| && j < |orders|
  {
    && InGroup(orders[j], orders[i]) && orders[i].status == orders[j].status == New
    && orders[i].side == orders[j].side == Sell
  }

  function GroupStatus(c: Candle, first: Order, second: Order): Status {
    if Reaches(c, first) then Filled else if Reaches(c, second) then Canceled else New
  }

  /** Candle k is the first from n on that reaches one of the two orders. */
  ghost predicate FirstOfEither(stream: seq<Candle>, n: nat, k: nat, o: Order, p: Order) {
    && n <= k < |stream| && (Reaches(stream[k], o) || Reaches(stream[k], p))
    && forall m :: n <= m < k ==> !Reaches(stream[m], o) && !Reaches(stream[m], p)
  }

  /** How a group ends: both legs pending while no candle has reached either; otherwise settled by the first candle
      that did, the earlier leg filled if that candle reached it, else the later one, and the other cancelled. */
  ghost predicate GroupEnds(stream: seq<Candle>, n: nat, o: Order, p: Order, first: Status, second: Status) {
    match first
    case New => second == New && forall k :: n <= k < |stream| ==> !Reaches(stream[k], o) && !Reaches(stream[k], p)
    case Filled => second == Canceled && exists k: nat :: FirstOfEither(stream, n, k, o, p) && Reaches(stream[k], o)
    case Canceled => second == Filled && exists k: nat :: FirstOfEither(stream, n, k, o, p) && !Reaches(stream[k], o)
    case _ => false
  }

  lemma NotYetReached(stream: seq<Candle>, n: nat, o: Order, p: Order)
    requires n == |stream|
    ensures GroupEnds(stream, n, o, p, New, New)
  {
  }

  lemma GroupGoesOn(stream: seq<Candle>, n: nat, o: Order, p: Order, first: Status, second: Status)
    requires n < |stream| && GroupEnds(stream[..|stream|-1], n, o, p, first, second)
    ensures var c := stream[|stream|-1];
      if first != New then GroupEnds(stream, n, o, p, first, second)
      else GroupEnds(stream, n, o, p, GroupStatus(c, o, p),
                     if Reaches(c, o) then Canceled else if Reaches(c, p) then Filled else New)
  {
    var init, c := stream[..|stream|-1], stream[|stream|-1];
    hide Reaches;
    assert forall m :: 0 <= m < |init| ==> init[m] == stream[m];
    forall m | n <= m < |init| && first == New ensures !Reaches(stream[m], o) && !Reaches(stream[m], p) {
      assert !Reaches(init[m], o) && !Reaches(init[m], p);
    }
    if first != New {
      var k: nat :| FirstOfEither(init, n, k, o, p) && (first == Filled <==> Reaches(init[k], o));
      assert FirstOfEither(stream, n, k, o, p) by {
        forall m | n <= m < k ensures !Reaches(stream[m], o) && !Reaches(stream[m], p) {
          assert !Reaches(init[m], o) && !Reaches(init[m], p);
        }
      }
    } else if Reaches(c, o) || Reaches(c, p) {
      assert FirstOfEither(stream, n, |init|, o, p);
    }
  }

  /** So the two sells of a group that nothing withdraws end the trade over a whole backtest. */
  lemma {:induction false} GroupExits(
    b: Book, stream: seq<Candle>, setups: map<Pair, Setup>, script: nat -> seq<Command>, n: nat, i: nat, j: nat)
    requires WellFormed(b) && n <= |stream|
    requires i < j < |Replay(b, stream[..n], setups, script).orders|
    requires PendingGroup(Replay(b, stream[..n], setups, script).orders, i, j)
    requires forall m :: n <= m < |stream| ==> Withdraw(i) !in script(m) && Withdraw(j) !in script(m)
    ensures var a, r := Replay(b, stream[..n], setups, script).orders, Replay(b, stream, setups, script).orders;
      && j < |r| && Same(a[i], r[i]) && Same(a[j], r[j])
      && GroupEnds(stream, n, a[i], a[j], r[i].status, r[j].status)
  {
    hide WellFormed, Turn, Calls, Meets, GroupEnds, GroupStatus;
    if n == |stream| {
      assert stream[..n] == stream;
      var a := Replay(b, stream, setups, script).orders;
      NotYetReached(stream, n, a[i], a[j]);
    } else {
      var init, c := stream[..|stream|-1], stream[|stream|-1];
      assert init[..n] == stream[..n];
      GroupExits(b, init, setups, script, n, i, j);
      ReplayKeepsShape(b, init, setups, script);
      var a, before := Replay(b, stream[..n], setups, script).orders, Replay(b, init, setups, script);
      TurnFillsWhatItReaches(before, Calls(init, c, setups), c, script(|init|), i);
      TurnFillsWhatItReaches(before, Calls(init, c, setups), c, script(|init|), j);
      GroupGoesOn(stream, n, a[i], a[j], before.orders[i].status, before.orders[j].status);
      EndsTogether(init, n, a[i], a[j], before.orders[i].status, before.orders[j].status);
      SameTerms(a[i], before.orders[i], c);
      SameTerms(a[j], before.orders[j], c);
      hide InGroup;
      if before.orders[i].status == New {
        assert GroupStatus(c, a[i], a[j]) == GroupStatus(c, before.orders[i], before.orders[j]) by {
          SameGroupStatus(c, a[i], a[j], before.orders[i], before.orders[j]);
        }
        SameLegs(a[i], a[j], before.orders[i], before.orders[j]);
        TurnOfGroup(before, Calls(init, c, setups), c, script(|init|), i, j);
      }
    }
  }

  lemma EndsTogether(stream: seq<Candle>, n: nat, o: Order, p: Order, first: Status, second: Status)
    requires GroupEnds(stream, n, o, p, first, second)
    ensures first == New <==> second == New
  {
  }

  lemma SameLegs(a: Order, b: Order, r: Order, s: Order)
    requires Same(a, r) && Same(b, s)
    ensures InGroup(b, a) <==> InGroup(s, r)
  {
  }

  lemma SameGroupStatus(c: Candle, a: Order, b: Order, r: Order, s: Order)
    requires Same(a, r) && Same(b, s)
    ensures GroupStatus(c, a, b) == GroupStatus(c, r, s)
  {
  }

  // ----- what a request asks for -----

  /** What an accepted request leaves to be executed, in its own terms: a limit order at its price, a stop order when
      the low reaches its price, a group's first order at its price and its second when the low reaches its stop. A
      market order is executed at the last close. All carry the time of the pair's last candle. */
  lemma RequestedOrders(b: Book, cmd: Command, c: Candle)
    requires Funding.Places(cmd) && |Step(b, cmd).orders| > |b.orders|
    ensures var r, n, p := Step(b, cmd).orders, |b.orders|, cmd.pair;
      && r[n].quantity == cmd.size && r[n].pair == p
      && r[n].createdAt == (if p in b.last then b.last[p].time else ZERO_TIME)
      && match cmd
         case LimitOrder(side, _, _, price) =>
           r[n].status == New && r[n].side == side && FillPrice(r[n]) == price
           && (Reaches(c, r[n]) <==> c.pair == p && if side == Buy then c.close <= price else price <= c.high)
         case StopOrder(_, _, price) =>
           r[n].status == New && r[n].side == Sell && FillPrice(r[n]) == price
           && (Reaches(c, r[n]) <==> c.pair == p && c.low <= price)
         case OcoOrder(_, size, price, stop, stopLimit) =>
           && PendingGroup(r, n, n + 1) && FillPrice(r[n]) == price && FillPrice(r[n + 1]) == stop
           && r[n + 1].price == stopLimit && r[n + 1].pair == p && r[n + 1].quantity == size
           && (Reaches(c, r[n]) <==> c.pair == p && price <= c.high)
           && (Reaches(c, r[n + 1]) <==> c.pair == p && c.low <= stop)
         case MarketOrder(side, _, _) =>
           r[n].status == Filled && r[n].side == side
           && r[n].price == (if p in b.last then b.last[p].close else 0.0) && FillPrice(r[n]) == r[n].price
  {
    hide Fund, Accepts;
    var r, n := Step(b, cmd).orders, |b.orders|;
    match cmd
    case LimitOrder(side, p, size, price) => assert r == PlaceLimit(b, side, p, size, price).orders;
    case StopOrder(p, size, price) => assert r == PlaceStop(b, p, size, price).orders;
    case OcoOrder(p, size, price, stop, stopLimit) =>
      assert r == PlaceOco(b, Sell, p, size, price, stop, stopLimit).orders;
    case MarketOrder(side, p, size) => assert r == PlaceMarket(b, side, p, size).orders;
  }
}
