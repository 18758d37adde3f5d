/** The wallet and the order controller keep separate books of the same market fills. On long-only market
    trading of an asset that was flat at first they agree, holding by holding and average by average; after
    a resume with the asset held they agree in size, and in average once the asset has been flat. */
module TwoLedgers {
  import opened Types
  import opened WalletSpec
  import opened LongOnly
  import opened Positions
  import opened Backtests
  import opened Controllers

  /** Trading the one pair leaves the asset of the other alone, or they are the same pair. */
  predicate Apart(p: Pair, q: Pair) { p == q || (p.asset != q.asset && p.asset != q.quote) }

  /** Candles, and market orders that touch the asset of the pair through that pair only. */
  predicate MarketOnly(p: Pair, cmd: Command) {
    match cmd
    case MarketOrder(_, q, _) => Apart(p, q)
    case NewCandle(_) => true
    case _ => false
  }

  /** The positions of a controller that started with m0 and applied every order as it was executed. */
  function Controlled(m0: map<Pair, Pos>, b: Book): map<Pair, Pos> { ApplyAll(m0, b.orders) }

  /** The controller has a position of the pair exactly while the wallet holds its asset: a long of that size. */
  predicate SameHolding(m: map<Pair, Pos>, b: Book, p: Pair) {
    var held := Free(b, p.asset);
    held >= 0.0 && (p in m <==> held > 0.0) && (held > 0.0 ==> m[p].side == Buy && m[p].quantity == held)
  }

  predicate Agrees(m: map<Pair, Pos>, b: Book, p: Pair) {
    SameHolding(m, b, p) && (p in m ==> m[p].avgPrice == Lookup(b.avgLong, p))
  }

  /** The asset is held, at a smaller average in the wallet than in the controller. */
  predicate Lags(m: map<Pair, Pos>, b: Book, p: Pair) {
    SameHolding(m, b, p) && p in m && Lookup(b.avgLong, p) < m[p].avgPrice
  }

  predicate Fills(orders: seq<Order>) {
    forall i :: 0 <= i < |orders| ==> IsFill(orders[i]) && orders[i].typ == Market
  }

  ghost predicate Matched(m0: map<Pair, Pos>, b: Book, p: Pair) { Fills(b.orders) && Agrees(Controlled(m0, b), b, p) }

  ghost predicate Trails(m0: map<Pair, Pos>, b: Book, p: Pair) { Fills(b.orders) && Lags(Controlled(m0, b), b, p) }

  lemma {:induction false} NothingToMatch(b: Book, c: Candle, n: nat)
    requires n <= |b.orders| && Fills(b.orders)
    ensures Scan(b, c, n) == b
  {
    if n > 0 { NothingToMatch(b, c, n - 1); }
  }

  /** Blending the same buy into equal holdings keeps the order of their averages. */
  lemma BlendKeepsOrder(held: real, w: real, a: real, q: real, x: real)
    requires held > 0.0 && q > 0.0
    ensures w < a ==> Blend(held, w, q, x) < Blend(held, a, q, x)
    ensures w == a ==> Blend(held, w, q, x) == Blend(held, a, q, x)
  {
    var u, v, n := Blend(held, w, q, x), Blend(held, a, q, x), held + q;
    assert u * n == held * w + q * x && v * n == held * a + q * x;
    assert (v - u) * n == held * (a - w);
    if w < a {
      Times(held, a - w);
      Quotient(v - u, n);
    }
  }

  lemma Times(x: real, y: real)
    requires x > 0.0 && y > 0.0
    ensures x * y > 0.0
  {
  }

  lemma Quotient(x: real, n: real)
    requires n > 0.0 && x * n > 0.0
    ensures x > 0.0
  {
  }

  ghost predicate BoughtBook(b: Book, r: Book, o: Order) {
    var f := FillMarketBuy(Touch(b, o.pair), o.pair, o.quantity, o.price);
    r.assets == f.assets && r.avgLong == f.avgLong
  }

  ghost predicate SoldBook(b: Book, r: Book, o: Order) {
    var f := FillMarketSell(Touch(b, o.pair), o.pair, o.quantity, o.price);
    r.assets == f.assets && r.avgLong == f.avgLong
  }

  predicate MarketFill(o: Order) { IsFill(o) && o.typ == Market && o.pair.asset != o.pair.quote }

  /** What a market order does to the holding and the average of its own pair and of pairs apart from it. */
  lemma BuyMoves(b: Book, r: Book, o: Order, p: Pair)
    requires MarketFill(o) && o.side == Buy && Apart(p, o.pair) && BoughtBook(b, r, o) && Free(b, p.asset) >= 0.0
    ensures p != o.pair ==> Free(r, p.asset) == Free(b, p.asset) && Lookup(r.avgLong, p) == Lookup(b.avgLong, p)
    ensures p == o.pair ==>
      && Free(r, p.asset) == Free(b, p.asset) + o.quantity
      && Lookup(r.avgLong, p) == Blend(Free(b, p.asset), Lookup(b.avgLong, p), o.quantity, o.price)
  {
    hide Worth, Blend, Liquid;
  }

  lemma SellMoves(b: Book, r: Book, o: Order, p: Pair)
    requires MarketFill(o) && o.side == Sell && Apart(p, o.pair) && SoldBook(b, r, o)
    requires o.quantity <= Free(b, o.pair.asset)
    ensures Lookup(r.avgLong, p) == Lookup(b.avgLong, p)
    ensures Free(r, p.asset) == Free(b, p.asset) - if p == o.pair then o.quantity else 0.0
  {
    hide Worth, Blend;
  }

  lemma BuyFollows(m: map<Pair, Pos>, b: Book, r: Book, o: Order, p: Pair)
    requires MarketFill(o) && o.side == Buy && Apart(p, o.pair) && BoughtBook(b, r, o) && SameHolding(m, b, p)
    ensures Agrees(m, b, p) ==> Agrees(Apply(m, o), r, p)
    ensures Lags(m, b, p) ==> Lags(Apply(m, o), r, p)
  {
    hide BoughtBook, Worth;
    BuyMoves(b, r, o, p);
    if p == o.pair && p in m {
      BlendKeepsOrder(m[p].quantity, Lookup(b.avgLong, p), m[p].avgPrice, o.quantity, o.price);
    }
  }

  lemma SellFollows(m: map<Pair, Pos>, b: Book, r: Book, o: Order, p: Pair)
    requires MarketFill(o) && o.side == Sell && Apart(p, o.pair) && SoldBook(b, r, o)
    requires o.quantity <= Free(b, o.pair.asset) && SameHolding(m, b, p)
    ensures Agrees(m, b, p) ==> Agrees(Apply(m, o), r, p)
    ensures Lags(m, b, p) ==>
      if Free(r, p.asset) == 0.0 then Agrees(Apply(m, o), r, p) else Lags(Apply(m, o), r, p)
  {
    SellMoves(b, r, o, p);
    hide SoldBook, Worth;
  }

  /** One accepted market order. A wallet that trails keeps trailing until the asset is flat. */
  lemma FillFollows(m0: map<Pair, Pos>, b: Book, r: Book, p: Pair, o: Order)
    requires MarketFill(o) && Apart(p, o.pair) && r.orders == b.orders + [o]
    requires o.side == Sell ==> o.quantity <= Free(b, o.pair.asset)
    requires var f := Fund(Touch(b, o.pair), o.side, o.pair, o.quantity, o.price, true);
      r.assets == f.assets && r.avgLong == f.avgLong
    ensures Matched(m0, b, p) ==> Matched(m0, r, p)
    ensures Trails(m0, b, p) ==> if Free(r, p.asset) == 0.0 then Matched(m0, r, p) else Trails(m0, r, p)
  {
    hide FillMarketBuy, FillMarketSell, Apply;
    if Matched(m0, b, p) || Trails(m0, b, p) {
      assert r.orders[..|b.orders|] == b.orders;
      assert Controlled(m0, r) == Apply(Controlled(m0, b), o);
      hide ApplyAll;
      var m := Controlled(m0, b);
      if o.side == Buy { BuyFollows(m, b, r, o, p); } else { SellFollows(m, b, r, o, p); }
      if o.side == Buy && Trails(m0, b, p) { NotFlat(Controlled(m0, r), r, p); }
    }
  }

  lemma NotFlat(m: map<Pair, Pos>, b: Book, p: Pair)
    requires Lags(m, b, p)
    ensures Free(b, p.asset) > 0.0
  {
  }

  lemma SameBooksFollow(m0: map<Pair, Pos>, b: Book, r: Book, p: Pair)
    requires r.orders == b.orders && r.avgLong == b.avgLong && Free(r, p.asset) == Free(b, p.asset)
    ensures Matched(m0, b, p) ==> Matched(m0, r, p)
    ensures Trails(m0, b, p) ==> Trails(m0, r, p) && Free(r, p.asset) > 0.0
  {
  }

  lemma StepKeepsMatched(m0: map<Pair, Pos>, b: Book, p: Pair, cmd: Command)
    requires Allowed(b, cmd) && MarketOnly(p, cmd)
    ensures Matched(m0, b, p) ==> Matched(m0, Step(b, cmd), p)
    ensures Trails(m0, b, p) ==>
      if Free(Step(b, cmd), p.asset) == 0.0 then Matched(m0, Step(b, cmd), p) else Trails(m0, Step(b, cmd), p)
  {
    var r := Step(b, cmd);
    match cmd
    case NewCandle(c) =>
      if Fills(b.orders) {
        NothingToMatch(b.(last := b.last[c.pair := c]), c, |b.orders|);
        SameBooksFollow(m0, b, r, p);
      }
    case MarketOrder(side, pair, size) =>
      hide Fund, Accepts, Matched, Trails;
      if size == 0.0 || !Accepts(b, side, pair, size, Close(b, pair)) {
        SameBooksFollow(m0, b, r, p);
      } else {
        FillFollows(m0, b, r, p, r.orders[|b.orders|]);
      }
  }

  lemma {:induction false} RunKeepsMatched(m0: map<Pair, Pos>, b: Book, p: Pair, cmds: seq<Command>)
    requires Matched(m0, b, p) && Legal(b, cmds) && forall k :: 0 <= k < |cmds| ==> MarketOnly(p, cmds[k])
    ensures Matched(m0, Run(b, cmds), p)
    decreases |cmds|
  {
    hide Matched, Step, Allowed;
    if cmds != [] {
      StepKeepsMatched(m0, b, p, cmds[0]);
      RunKeepsMatched(m0, Step(b, cmds[0]), p, cmds[1..]);
    }
  }

  lemma StartsMatched(initial: map<string, real>, p: Pair)
    requires Lookup(initial, p.asset) == 0.0
    ensures Matched(map[], Opening(initial), p)
  {
  }

  /** In every run of market orders from a wallet in which the asset is flat, whatever else it holds, the pair is
      open in the controller exactly while the wallet holds its asset, with the same quantity and the same average
      price, and that average lies between the cheapest and the dearest buy since it was opened. */
  lemma LedgersAgree(initial: map<string, real>, cmds: seq<Command>, pair: Pair, lo: real, hi: real)
    requires Lookup(initial, pair.asset) == 0.0 && Legal(Opening(initial), cmds)
    requires forall k :: 0 <= k < |cmds| ==> MarketOnly(pair, cmds[k])
    requires forall x :: x in Entries(Run(Opening(initial), cmds).orders, pair) ==> lo <= x <= hi
    ensures var b := Run(Opening(initial), cmds);
      && Agrees(Controlled(map[], b), b, pair)
      && (Free(b, pair.asset) > 0.0 ==> lo <= Lookup(b.avgLong, pair) <= hi)
  {
    hide Opening, Run, Legal, Entries, ApplyAll, MarketOnly;
    StartsMatched(initial, pair);
    RunKeepsMatched(map[], Opening(initial), pair, cmds);
    var b := Run(Opening(initial), cmds);
    if pair in Controlled(map[], b) { AverageWithinEntries(b.orders, pair, lo, hi); }
  }

  // ----- after a resume -----

  /** The asset is flat at some point of the run. */
  predicate FlatInRun(b: Book, cmds: seq<Command>, asset: string)
    requires Legal(b, cmds)
    decreases |cmds|
  {
    Free(b, asset) == 0.0 || (cmds != [] && FlatInRun(Step(b, cmds[0]), cmds[1..], asset))
  }

  lemma {:induction false} RunKeepsTrailing(m0: map<Pair, Pos>, b: Book, p: Pair, cmds: seq<Command>)
    requires Trails(m0, b, p) && Legal(b, cmds) && forall k :: 0 <= k < |cmds| ==> MarketOnly(p, cmds[k])
    ensures if FlatInRun(b, cmds, p.asset) then Matched(m0, Run(b, cmds), p) else Trails(m0, Run(b, cmds), p)
    decreases |cmds|
  {
    NotFlat(Controlled(m0, b), b, p);
    hide Matched, Trails, Step, Allowed, MarketOnly;
    if cmds != [] {
      StepKeepsMatched(m0, b, p, cmds[0]);
      var r := Step(b, cmds[0]);
      if Free(r, p.asset) == 0.0 {
        assert FlatInRun(r, cmds[1..], p.asset);
        RunKeepsMatched(m0, r, p, cmds[1..]);
      } else {
        RunKeepsTrailing(m0, r, p, cmds[1..]);
      }
    }
  }

  /** A resumed wallet starts without average prices, while the controller restores its own. From then on they
      agree in size, and in average exactly once the asset has been flat. */
  lemma ResumedAveragesAgreeIff(
    restored: map<Pair, Pos>, balances: map<string, real>, cmds: seq<Command>, pair: Pair)
    requires SameHolding(restored, Opening(balances), pair) && pair in restored && restored[pair].avgPrice > 0.0
    requires Legal(Opening(balances), cmds) && forall k :: 0 <= k < |cmds| ==> MarketOnly(pair, cmds[k])
    ensures var b := Run(Opening(balances), cmds);
      var m := Controlled(restored, b);
      && SameHolding(m, b, pair)
      && (pair in m ==>
            (m[pair].avgPrice == Lookup(b.avgLong, pair) <==> FlatInRun(Opening(balances), cmds, pair.asset)))
  {
    assert Trails(restored, Opening(balances), pair);
    hide Opening, Run, Legal, FlatInRun, ApplyAll, MarketOnly;
    RunKeepsTrailing(restored, Opening(balances), pair, cmds);
  }

  // ----- the wallet and the controller of a whole backtest -----

  /** The strategies ask for market orders only, and touch the asset of the pair through that pair only. */
  ghost predicate MarketScript(p: Pair, script: nat -> seq<Command>) {
    forall n :: AllMarket(script(n)) && forall k :: 0 <= k < |script(n)| ==> MarketOnly(p, script(n)[k])
  }

  lemma {:induction false} RequestsKeepMatched(b: Book, p: Pair, cmds: seq<Command>)
    requires Matched(map[], b, p) && LongOnlyRequests(b, cmds)
    requires forall k :: 0 <= k < |cmds| ==> MarketOnly(p, cmds[k])
    ensures Matched(map[], ObeyAll(b, cmds), p)
  {
    hide Matched, Step, Allowed, Doable, MarketOnly;
    if cmds != [] {
      var init, cmd := cmds[..|cmds|-1], cmds[|cmds|-1];
      RequestsKeepMatched(b, p, init);
      if Doable(ObeyAll(b, init), cmd) { StepKeepsMatched(map[], ObeyAll(b, init), p, cmd); }
    }
  }

  lemma TickKeepsMatched(b: Book, p: Pair, c: Candle)
    requires Matched(map[], b, p)
    ensures Matched(map[], Tick(b, c), p)
  {
    hide Matched, Tick;
    StepKeepsMatched(map[], b, p, NewCandle(c));
  }

  /** Every backtest of a long-only strategy that trades by market orders keeps the two ledgers matched. */
  lemma {:induction false} BacktestKeepsMatched(
    b: Book, p: Pair, stream: seq<Candle>, setups: map<Pair, Setup>, script: nat -> seq<Command>)
    requires Matched(map[], b, p) && LongOnlyStrategy(b, stream, setups, script) && MarketScript(p, script)
    ensures Matched(map[], Replay(b, stream, setups, script), p)
  {
    hide Matched, Tick, Calls, LongOnlyRequests, ObeyAll, MarketOnly;
    if stream != [] {
      var init, c := stream[..|stream|-1], stream[|stream|-1];
      BacktestKeepsMatched(b, p, init, setups, script);
      var before := Replay(b, init, setups, script);
      TickKeepsMatched(before, p, c);
      if Calls(init, c, setups) { RequestsKeepMatched(Tick(before, c), p, script(|init|)); }
    }
  }

  /** Storage ids, statuses and update times make no difference to the positions. */
  lemma {:induction false} RowsApplyAsOrders(rows: seq<Order>, orders: seq<Order>)
    requires Aligned(rows, orders)
    ensures ApplyAll(map[], rows) == ApplyAll(map[], orders)
  {
    if rows != [] {
      var n := |rows| - 1;
      forall k | 0 <= k < n ensures RowOf(rows[..n][k], orders[..n][k], k + 1) {
        assert RowOf(rows[k], orders[k], k + 1);
      }
      RowsApplyAsOrders(rows[..n], orders[..n]);
      assert RowOf(rows[n], orders[n], n + 1);
      RowAppliesAsOrder(ApplyAll(map[], rows[..n]), rows[n], orders[n], n + 1);
    }
  }

  lemma RowAppliesAsOrder(m: map<Pair, Pos>, row: Order, o: Order, id: int)
    requires RowOf(row, o, id)
    ensures Apply(m, row) == Apply(m, o)
  {
  }

  /** A controller that applied each order as it was stored holds the positions of the wallet's orders. */
  lemma ControllerHoldsOrders(c: Controller)
    requires c.Linked() && c.Immediate()
    ensures c.Positions() == Controlled(map[], c.exchange.View())
  {
    hide ApplyAll, Aligned;
    RowsApplyAsOrders(c.storage.rows, c.exchange.orders);
  }

  /** After any backtest of such a strategy from a wallet in which the asset is flat, whatever else it holds, the
      controller has a position of the pair exactly while the wallet holds its asset: a long of that quantity, at
      the wallet's average price, which lies between the cheapest and the dearest buy since it was opened. */
  lemma LedgersAgreeInBacktest(
    c: Controller, initial: map<string, real>, stream: seq<Candle>, setups: map<Pair, Setup>,
    script: nat -> seq<Command>, pair: Pair, lo: real, hi: real)
    requires c.Linked() && c.Immediate() && Lookup(initial, pair.asset) == 0.0
    requires c.exchange.View() == Replay(Opening(initial), stream, setups, script)
    requires LongOnlyStrategy(Opening(initial), stream, setups, script) && MarketScript(pair, script)
    requires forall x :: x in Entries(c.exchange.orders, pair) ==> lo <= x <= hi
    ensures var held, m := Free(c.exchange.View(), pair.asset), c.Positions();
      && (pair in m <==> held > 0.0)
      && (pair in m ==>
            && m[pair].side == Buy && m[pair].quantity == held
            && m[pair].avgPrice == Lookup(c.exchange.avgLongPrice, pair) && lo <= m[pair].avgPrice <= hi)
  {
    var b := c.exchange.View();
    StartsMatched(initial, pair);
    BacktestKeepsMatched(Opening(initial), pair, stream, setups, script);
    ControllerHoldsOrders(c);
    assert Agrees(Controlled(map[], b), b, pair) && Fills(b.orders);
    hide Replay, LongOnlyStrategy, Opening, Entries, ApplyAll;
    if pair in Controlled(map[], b) { AverageWithinEntries(b.orders, pair, lo, hi); }
  }
}
