/** Rebuilding a session's balances from its order history, as a resumed session does. */
module Resume {
  import opened Types
  import opened Ledger
  import opened WalletSpec
  import opened WalletShape
  import opened LongOnly

  /** Amounts up to this are dropped when a wallet is rebuilt. */
  const DUST := 0.00000001

  function Replayed(initial: map<string, real>, orders: seq<Order>, coin: string): real {
    Lookup(initial, coin) + Sum(Flow(coin), orders)
  }

  method CalculateBalancesFromOrders(initialAsset: string, initialAmount: real, orders: seq<Order>)
    returns (balances: map<string, real>)
    ensures forall coin :: Lookup(balances, coin) == Replayed(map[initialAsset := initialAmount], orders, coin)
  {
    var initial := map[initialAsset := initialAmount];
    balances := initial;
    for i := 0 to |orders|
      invariant forall coin :: Lookup(balances, coin) == Replayed(initial, orders[..i], coin)
    {
      var order := orders[i];
      ghost var before := balances;
      if order.status == Filled {
        var base, quote := order.pair.asset, order.pair.quote;
        var orderValue := Worth(order.quantity, order.price);
        if order.side == Buy {
          balances := balances[base := Lookup(balances, base) + order.quantity];
          balances := balances[quote := Lookup(balances, quote) - orderValue];
        } else {
          balances := balances[quote := Lookup(balances, quote) + orderValue];
          balances := balances[base := Lookup(balances, base) - order.quantity];
        }
      }
      forall coin
        ensures Lookup(balances, coin) == Replayed(initial, orders[..i + 1], coin)
      {
        assert Lookup(before, coin) == Replayed(initial, orders[..i], coin);
        assert orders[..i + 1] == orders[..i] + [order];
        SumAppend(Flow(coin), orders[..i], order);
        assert Worth(-order.quantity, order.price) == -Worth(order.quantity, order.price);
      }
    }
    assert orders[..|orders|] == orders;
  }

  /** The starting assets of the wallet a resumed session trades with. */
  function RestoredAssets(balances: map<string, real>): map<string, Asset> {
    map a | a in balances && balances[a] > DUST :: Asset(balances[a], 0.0)
  }

  /** Every group's stop price is also its recorded price, as the strategies place them. */
  predicate StopsAtLimit(cmds: seq<Command>) {
    forall k :: 0 <= k < |cmds| && cmds[k].OcoOrder? ==> cmds[k].stop == cmds[k].stopLimit
  }

  /** Every group's stop price is at or above its recorded price, or every one at or below it. */
  predicate StopsOneWay(cmds: seq<Command>, above: bool) {
    forall k :: 0 <= k < |cmds| && cmds[k].OcoOrder? ==>
      if above then cmds[k].stopLimit <= cmds[k].stop else cmds[k].stop <= cmds[k].stopLimit
  }

  predicate OneWay(orders: seq<Order>, above: bool) {
    forall i :: 0 <= i < |orders| && IsStop(orders[i]) ==>
      orders[i].stop.Some? &&
      if above then orders[i].price <= orders[i].stop.value else orders[i].stop.value <= orders[i].price
  }

  predicate NoSlip(orders: seq<Order>) {
    forall i :: 0 <= i < |orders| && IsStop(orders[i]) ==> orders[i].stop == Some(orders[i].price)
  }

  lemma EvolvingKeepsOneWay(a: seq<Order>, r: seq<Order>, above: bool)
    requires OneWay(a, above) && |a| <= |r| && Evolves(a, r[..|a|])
    requires forall i :: |a| <= i < |r| && IsStop(r[i]) ==> OneWay([r[i]], above)
    ensures OneWay(r, above)
  {
    forall i | 0 <= i < |r| && IsStop(r[i]) ensures OneWay([r[i]], above) {
      if i < |a| { assert r[..|a|][i] == a[i].(status := r[i].status, updatedAt := r[i].updatedAt); }
    }
    assert forall i :: 0 <= i < |r| && IsStop(r[i]) ==> [r[i]][0] == r[i];
  }

  lemma NewOrdersOneWay(b: Book, cmd: Command, above: bool)
    requires Allowed(b, cmd) && StopsOneWay([cmd], above) && |b.orders| <= |Step(b, cmd).orders|
    ensures var r := Step(b, cmd).orders;
      forall i :: |b.orders| <= i < |r| && IsStop(r[i]) ==> OneWay([r[i]], above)
  {
    assert [cmd][0] == cmd;
    hide Fund, Accepts, Tick, CancelOrder;
    match cmd
    case Withdraw(i) => CancelledOrders(b, i);
    case NewCandle(c) => assert |Tick(b, c).orders| == |b.orders|;
    case _ =>
  }

  lemma StepKeepsOneWay(b: Book, initial: map<string, real>, cmd: Command, above: bool)
    requires Sound(b, initial) && Allowed(b, cmd) && OneWay(b.orders, above)
    requires StopsOneWay([cmd], above)
    ensures OneWay(Step(b, cmd).orders, above)
  {
    hide Sound, Step, OneWay, StopsOneWay, Allowed, Evolves;
    StepEvolves(b, initial, cmd);
    NewOrdersOneWay(b, cmd, above);
    EvolvingKeepsOneWay(b.orders, Step(b, cmd).orders, above);
  }

  lemma {:induction false} RunKeepsOneWay(b: Book, initial: map<string, real>, cmds: seq<Command>, above: bool)
    requires Sound(b, initial) && Legal(b, cmds) && OneWay(b.orders, above) && StopsOneWay(cmds, above)
    ensures OneWay(Run(b, cmds).orders, above)
    decreases |cmds|
  {
    hide Sound, Step, Allowed, OneWay;
    if cmds != [] {
      StepKeepsSound(b, initial, cmds[0]);
      StepKeepsOneWay(b, initial, cmds[0], above);
      RunKeepsOneWay(Step(b, cmds[0]), initial, cmds[1..], above);
    }
  }

  lemma RunKeepsNoSlip(b: Book, initial: map<string, real>, cmds: seq<Command>)
    requires Sound(b, initial) && Legal(b, cmds) && NoSlip(b.orders) && StopsAtLimit(cmds)
    ensures NoSlip(Run(b, cmds).orders)
  {
    hide Sound, Legal, Run;
    RunKeepsOneWay(b, initial, cmds, true);
    RunKeepsOneWay(b, initial, cmds, false);
  }

  lemma {:induction false} NoSlipSumsToZero(orders: seq<Order>, coin: string)
    requires NoSlip(orders)
    ensures Sum(Slip(coin), orders) == 0.0
  {
    if orders != [] { NoSlipSumsToZero(orders[..|orders|-1], coin); }
  }

  /** When every OCO order stops at its limit price, the wallet rebuilt from the order history starts
      with exactly what the live wallet held, coin by coin, up to dust. */
  lemma ResumeAgreesWithLive(asset: string, amount: real, cmds: seq<Command>, balances: map<string, real>, coin: string)
    requires amount >= 0.0 && Legal(Opening(map[asset := amount]), cmds) && StopsAtLimit(cmds)
    requires forall c :: Lookup(balances, c)
                      == Replayed(map[asset := amount], Run(Opening(map[asset := amount]), cmds).orders, c)
    ensures var live := Run(Opening(map[asset := amount]), cmds);
      var held := Free(live, coin) + Lock(live, coin);
      && Lookup(balances, coin) == held
      && Get(RestoredAssets(balances), coin) == Asset(if held > DUST then held else 0.0, 0.0)
  {
    var initial := map[asset := amount];
    OpeningIsSound(initial);
    RunKeepsNoSlip(Opening(initial), initial, cmds);
    var live := Run(Opening(initial), cmds);
    NoSlipSumsToZero(live.orders, coin);
    HoldingsMatchReplay(initial, cmds, coin);
    assert Lookup(balances, coin) == Replayed(initial, live.orders, coin);
  }

  // ----- several resumes -----

  /** One wallet of a session: what it started with and what was asked of it. */
  datatype Stint = Stint(start: map<string, real>, cmds: seq<Command>)

  function EndOf(s: Stint): Book {
    if Legal(Opening(s.start), s.cmds) then Run(Opening(s.start), s.cmds) else Opening(s.start)
  }

  /** The session's order history over all its wallets. */
  function OrdersOf(stints: seq<Stint>): seq<Order> {
    if stints == [] then [] else OrdersOf(stints[..|stints|-1]) + EndOf(stints[|stints|-1]).orders
  }

  /** What a rebuilt wallet keeps of a balance. */
  function Kept(balance: real): real { if balance > DUST then balance else 0.0 }

  /** Every wallet of the session, the first one too, is rebuilt from the history so far. */
  ghost predicate Session(initial: map<string, real>, stints: seq<Stint>) {
    stints == [] ||
    var before, s := stints[..|stints|-1], stints[|stints|-1];
    && Session(initial, before)
    && (forall coin :: Lookup(s.start, coin) == Kept(Replayed(initial, OrdersOf(before), coin)))
    && Legal(Opening(s.start), s.cmds) && StopsAtLimit(s.cmds)
  }

  lemma StintMoves(s: Stint, coin: string)
    requires Legal(Opening(s.start), s.cmds) && StopsAtLimit(s.cmds)
    requires forall a :: a in s.start ==> s.start[a] >= 0.0
    ensures var b := EndOf(s);
      && Free(b, coin) + Lock(b, coin) == Lookup(s.start, coin) + Sum(Flow(coin), b.orders)
      && Free(b, coin) >= 0.0 && Lock(b, coin) >= 0.0
  {
    hide Opening, Legal, Run, Sum;
    OpeningIsSound(s.start);
    NoStopsYet(s.start);
    RunKeepsNoSlip(Opening(s.start), s.start, s.cmds);
    NoSlipSumsToZero(EndOf(s).orders, coin);
    HoldingsMatchReplay(s.start, s.cmds, coin);
    LocksMatchPendingOrders(s.start, s.cmds, coin);
  }

  lemma NoStopsYet(initial: map<string, real>)
    ensures NoSlip(Opening(initial).orders)
  {
  }

  lemma SessionStart(initial: map<string, real>, stints: seq<Stint>)
    requires Session(initial, stints) && stints != []
    ensures var s := stints[|stints|-1];
      Legal(Opening(s.start), s.cmds) && StopsAtLimit(s.cmds) && forall a :: a in s.start ==> s.start[a] >= 0.0
  {
    var s := stints[|stints|-1];
    forall a | a in s.start ensures s.start[a] >= 0.0 { assert Lookup(s.start, a) == s.start[a]; }
    hide Replayed, OrdersOf, Legal, Opening;
  }

  lemma ReplayedNext(initial: map<string, real>, stints: seq<Stint>, coin: string)
    requires stints != []
    ensures Replayed(initial, OrdersOf(stints), coin)
         == Replayed(initial, OrdersOf(stints[..|stints|-1]), coin) + Sum(Flow(coin), EndOf(stints[|stints|-1]).orders)
  {
    hide EndOf, Sum;
    SumInParts(Flow(coin), OrdersOf(stints[..|stints|-1]), EndOf(stints[|stints|-1]).orders);
  }

  /** However often a session is stopped and resumed, the replay of its whole history is what its last wallet holds,
      coin by coin; dust that was dropped is at most the one amount and does not add up. */
  lemma {:induction false} SessionAgreesWithLive(initial: map<string, real>, stints: seq<Stint>, coin: string)
    requires Session(initial, stints) && forall a :: a in initial ==> initial[a] >= 0.0
    ensures var replay := Replayed(initial, OrdersOf(stints), coin);
      if stints == [] then replay == Lookup(initial, coin)
      else
        var last := EndOf(stints[|stints|-1]);
        var held := Free(last, coin) + Lock(last, coin);
        0.0 <= held <= replay <= held + DUST
  {
    if stints == [] {
      assert Sum(Flow(coin), []) == 0.0;
    } else {
      hide EndOf, OrdersOf, Replayed, Opening, Legal;
      var before := stints[..|stints|-1];
      SessionAgreesWithLive(initial, before, coin);
      SessionStart(initial, stints);
      StintMoves(stints[|stints|-1], coin);
      ReplayedNext(initial, stints, coin);
    }
  }

  // ----- exactly when the replay agrees -----

  /** A filled stop order in a pair quoted in the coin that was recorded at another price than it was filled at. */
  predicate Slipped(o: Order, coin: string) {
    o.status == Filled && o.side == Sell && o.pair.quote == coin && IsStop(o) && o.stop.Some? && o.stop.value != o.price
  }

  lemma SlipWeighs(o: Order, coin: string)
    requires o.quantity > 0.0
    ensures Weight(Slip(coin), o) == 0.0 <==> !Slipped(o, coin)
    ensures IsStop(o) && o.stop.Some? && o.price <= o.stop.value ==> Weight(Slip(coin), o) >= 0.0
    ensures IsStop(o) && o.stop.Some? && o.stop.value <= o.price ==> Weight(Slip(coin), o) <= 0.0
  {
    if o.stop.Some? {
      var d := o.stop.value - o.price;
      assert Worth(o.quantity, o.stop.value) - Worth(o.quantity, o.price) == Worth(o.quantity, d);
      WorthSign(o.quantity, d);
    }
  }

  lemma WorthSign(q: real, d: real)
    requires q > 0.0
    ensures (d > 0.0 ==> Worth(q, d) > 0.0) && (d < 0.0 ==> Worth(q, d) < 0.0) && (d == 0.0 ==> Worth(q, d) == 0.0)
  {
  }

  /** Slips that all go one way cannot cancel out. */
  lemma {:induction false} SlipIsZeroIff(orders: seq<Order>, coin: string, above: bool)
    requires OneWay(orders, above) && forall i :: 0 <= i < |orders| ==> orders[i].quantity > 0.0
    ensures if above then Sum(Slip(coin), orders) >= 0.0 else Sum(Slip(coin), orders) <= 0.0
    ensures Sum(Slip(coin), orders) == 0.0 <==> forall i :: 0 <= i < |orders| ==> !Slipped(orders[i], coin)
  {
    hide Slipped, Weight;
    if orders != [] {
      var init, o := orders[..|orders|-1], orders[|orders|-1];
      assert forall i :: 0 <= i < |init| ==> init[i] == orders[i];
      SlipIsZeroIff(init, coin, above);
      SlipWeighs(o, coin);
      NoStopNoSlip(o, coin);
    }
  }

  lemma NoStopNoSlip(o: Order, coin: string)
    ensures !IsStop(o) ==> Weight(Slip(coin), o) == 0.0
  {
  }

  /** When stops are set on one side of their limits, the replay gives a coin what the wallet holds of it
      exactly if no stop order quoted in it was filled away from its recorded price. */
  lemma ReplayAgreesIff(initial: map<string, real>, cmds: seq<Command>, coin: string, above: bool)
    requires forall a :: a in initial ==> initial[a] >= 0.0
    requires Legal(Opening(initial), cmds) && StopsOneWay(cmds, above)
    ensures var b := Run(Opening(initial), cmds);
      Free(b, coin) + Lock(b, coin) == Replayed(initial, b.orders, coin)
      <==> forall i :: 0 <= i < |b.orders| ==> !Slipped(b.orders[i], coin)
  {
    hide Opening, Run, Legal, Sound, Slipped;
    OpeningIsSound(initial);
    HoldingsMatchReplay(initial, cmds, coin);
    RunKeepsSound(Opening(initial), initial, cmds);
    NothingOpened(initial, above);
    RunKeepsOneWay(Opening(initial), initial, cmds, above);
    SoundQuantities(Run(Opening(initial), cmds), initial);
    SlipIsZeroIff(Run(Opening(initial), cmds).orders, coin, above);
  }

  lemma NothingOpened(initial: map<string, real>, above: bool)
    ensures OneWay(Opening(initial).orders, above)
  {
  }

  lemma SoundQuantities(b: Book, initial: map<string, real>)
    requires Sound(b, initial)
    ensures forall i :: 0 <= i < |b.orders| ==> b.orders[i].quantity > 0.0
  {
    hide Balanced, Grouped, WellFormed;
    assert forall i :: 0 <= i < |b.orders| ==> Plain(b.orders[i]);
  }

  /** A run in which they differ: a group that sells one coin with a stop at 8 and its limit at 7 is filled at 8
      and recorded at 7. */
  lemma SlippedRun() returns (initial: map<string, real>, cmds: seq<Command>)
    ensures initial == map["BTC" := 1.0] && Legal(Opening(initial), cmds) && StopsOneWay(cmds, true)
    ensures var b := Run(Opening(initial), cmds);
      Free(b, "USDT") + Lock(b, "USDT") != Replayed(initial, b.orders, "USDT")
  {
    var pair := Pair("BTC", "USDT");
    initial := map["BTC" := 1.0];
    var oco := OcoOrder(pair, 1.0, 20.0, 8.0, 7.0);
    var candle := Candle(pair, 1, 1, 9.0, 8.0, 8.0, 9.0, 1.0, true);
    cmds := [oco, NewCandle(candle)];
    hide Step, Opening, Legal, Run, Allowed, Tick;
    var start := Opening(initial);
    GroupOpened(start, oco, candle);
    GroupStopped(Step(start, oco), candle);
    RunTwo(start, oco, NewCandle(candle));
    StopsBelow(oco, candle);
    ReplayAgreesIff(initial, cmds, "USDT", true);
  }

  lemma StopsBelow(oco: Command, c: Candle)
    requires oco.OcoOrder? && oco.stopLimit <= oco.stop
    ensures StopsOneWay([oco, NewCandle(c)], true)
  {
  }

  lemma GroupOpened(start: Book, oco: Command, c: Candle)
    requires c.pair == Pair("BTC", "USDT") && oco == OcoOrder(c.pair, 1.0, 20.0, 8.0, 7.0)
    requires start == Opening(map["BTC" := 1.0])
    ensures Allowed(start, oco) && Allowed(Step(start, oco), NewCandle(c))
    ensures Step(start, oco).orders
         == [Draft(0, 2, Sell, c.pair, LimitMaker, New, 20.0, 1.0, None, Some(1)),
             Draft(0, 3, Sell, c.pair, StopLoss, New, 7.0, 1.0, Some(8.0), Some(1))]
  {
    hide Fund;
  }

  lemma GroupStopped(b: Book, c: Candle)
    requires c.pair == Pair("BTC", "USDT") && c.low == 8.0 && c.high == 9.0
    requires b.orders == [Draft(0, 2, Sell, c.pair, LimitMaker, New, 20.0, 1.0, None, Some(1)),
                          Draft(0, 3, Sell, c.pair, StopLoss, New, 7.0, 1.0, Some(8.0), Some(1))]
    ensures var r := Step(b, NewCandle(c)).orders; |r| == 2 && Slipped(r[1], "USDT")
  {
    hide FillSell, FillBuy, Sibling;
    var t := b.(last := b.last[c.pair := c]);
    assert Match(t, 0, c) == t;
    assert Match(t, 1, c) == FillSell(t, 1, c, 8.0);
    ScanOfTwo(t, c);
    SoldBook(t, 1, c, 8.0);
  }

  lemma ScanOfTwo(t: Book, c: Candle)
    requires |t.orders| == 2 && Match(t, 0, c) == t
    ensures Scan(t, c, 2) == Match(t, 1, c)
  {
    hide Match;
    assert Scan(t, c, 0) == t;
    assert Scan(t, c, 1) == t;
  }
}
