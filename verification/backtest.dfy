/** A whole backtest on values: what candles and requests do to the exchange's books. */
module Backtests {
  import opened Types
  import opened Ledger
  import opened WalletSpec
  import opened WalletShape
  import opened LongOnly
  import opened Feed
  import opened Dataframes
  import opened Pipeline

  /** How a pair's strategy takes its candles. */
  datatype Setup = Setup(warmup: nat, highFrequency: bool, started: bool)

  /** What a strategy may ask for at this point of a run: sizes that are not negative, in pairs of two coins,
      and cancellations of pending orders. */
  predicate Doable(b: Book, cmd: Command) {
    match cmd
    case LimitOrder(_, p, size, _) => size >= 0.0 && p.asset != p.quote
    case StopOrder(p, size, _) => size >= 0.0 && p.asset != p.quote
    case OcoOrder(p, size, _, _, _) => size >= 0.0 && p.asset != p.quote
    case MarketOrder(_, p, size) => size >= 0.0 && p.asset != p.quote
    case Withdraw(i) => i < |b.orders| && b.orders[i].status == New
    case NewCandle(_) => false
  }

  predicate AllMarket(cmds: seq<Command>) { forall k :: 0 <= k < |cmds| ==> cmds[k].MarketOrder? }

  function Obey(b: Book, cmd: Command): Book { if Doable(b, cmd) then Step(b, cmd) else b }

  function ObeyAll(b: Book, cmds: seq<Command>): Book {
    if cmds == [] then b else Obey(ObeyAll(b, cmds[..|cmds|-1]), cmds[|cmds|-1])
  }

  /** One candle: the exchange matches first, then the strategy trades if it is called. */
  function Turn(b: Book, called: bool, c: Candle, cmds: seq<Command>): Book {
    if called then ObeyAll(Tick(b, c), cmds) else Tick(b, c)
  }

  predicate Calls(stream: seq<Candle>, c: Candle, setups: map<Pair, Setup>) {
    c.pair in setups &&
    var s := setups[c.pair];
    Called(ConsumeAll(Only(stream, c.pair), s.warmup, s.highFrequency), c, s.warmup, s.highFrequency, s.started)
  }

  /** The books after a stream of candles; `script(n)` is what the strategy called on candle n asks for. */
  function Replay(b: Book, stream: seq<Candle>, setups: map<Pair, Setup>, script: nat -> seq<Command>): Book {
    if stream == [] then b
    else
      var init, c := stream[..|stream|-1], stream[|stream|-1];
      Turn(Replay(b, init, setups, script), Calls(init, c, setups), c, script(|init|))
  }

  lemma NothingReplayed(b: Book, setups: map<Pair, Setup>, script: nat -> seq<Command>)
    ensures Replay(b, [], setups, script) == b
  {
  }

  lemma ReplayNext(b: Book, stream: seq<Candle>, c: Candle, setups: map<Pair, Setup>, script: nat -> seq<Command>)
    ensures Replay(b, stream + [c], setups, script)
         == Turn(Replay(b, stream, setups, script), Calls(stream, c, setups), c, script(|stream|))
  {
    assert (stream + [c])[..|stream|] == stream;
    hide Turn, Calls;
  }

  // ----- a strategy that stays long-only -----

  /** Every request that is carried out is one a long-only caller gives. */
  predicate LongOnlyRequests(b: Book, cmds: seq<Command>) {
    cmds == [] ||
    var init, cmd := cmds[..|cmds|-1], cmds[|cmds|-1];
    LongOnlyRequests(b, init) && (Doable(ObeyAll(b, init), cmd) ==> Allowed(ObeyAll(b, init), cmd))
  }

  predicate LongOnlyStrategy(b: Book, stream: seq<Candle>, setups: map<Pair, Setup>, script: nat -> seq<Command>) {
    stream == [] ||
    var init, c := stream[..|stream|-1], stream[|stream|-1];
    && LongOnlyStrategy(b, init, setups, script)
    && (Calls(init, c, setups) ==> LongOnlyRequests(Tick(Replay(b, init, setups, script), c), script(|init|)))
  }

  lemma {:induction false} RequestsKeepSound(b: Book, initial: map<string, real>, cmds: seq<Command>)
    requires Sound(b, initial) && LongOnlyRequests(b, cmds)
    ensures Sound(ObeyAll(b, cmds), initial)
  {
    hide Sound, Step, Allowed, Doable;
    if cmds != [] {
      var init, cmd := cmds[..|cmds|-1], cmds[|cmds|-1];
      RequestsKeepSound(b, initial, init);
      if Doable(ObeyAll(b, init), cmd) { StepKeepsSound(ObeyAll(b, init), initial, cmd); }
    }
  }

  /** A whole backtest of a long-only strategy keeps the books balanced, whatever the candles. */
  lemma {:induction false} BacktestKeepsSound(
    b: Book, initial: map<string, real>, stream: seq<Candle>, setups: map<Pair, Setup>, script: nat -> seq<Command>)
    requires Sound(b, initial) && LongOnlyStrategy(b, stream, setups, script)
    ensures Sound(Replay(b, stream, setups, script), initial)
  {
    hide Sound, Tick, Calls, LongOnlyRequests, ObeyAll;
    if stream != [] {
      var init, c := stream[..|stream|-1], stream[|stream|-1];
      BacktestKeepsSound(b, initial, init, setups, script);
      var before := Replay(b, init, setups, script);
      TickKeepsSound(before, initial, c);
      if Calls(init, c, setups) { RequestsKeepSound(Tick(before, c), initial, script(|init|)); }
    }
  }

  /** So a long-only backtest that starts with free amounts only never overdraws a coin, locks exactly
      what its pending orders need, and holds what its fills have moved. */
  lemma BacktestBalances(
    initial: map<string, real>, stream: seq<Candle>, setups: map<Pair, Setup>, script: nat -> seq<Command>,
    coin: string)
    requires forall a :: a in initial ==> initial[a] >= 0.0
    requires LongOnlyStrategy(Opening(initial), stream, setups, script)
    ensures var b := Replay(Opening(initial), stream, setups, script);
      && Free(b, coin) >= 0.0
      && Lock(b, coin) == Sum(LockedAsset(coin), b.orders) + Sum(LockedQuote(coin), b.orders) >= 0.0
      && Free(b, coin) + Lock(b, coin)
         == Lookup(initial, coin) + Sum(Flow(coin), b.orders) + Sum(Slip(coin), b.orders)
  {
    OpeningIsSound(initial);
    hide Opening, Replay, WellFormed, Grouped;
    BacktestKeepsSound(Opening(initial), initial, stream, setups, script);
    var b := Replay(Opening(initial), stream, setups, script);
    assert Balanced(b, initial, coin);
    LocksAreNonNegative(b, coin);
  }

  /** In every such backtest one leg of a group is filled exactly when the other is cancelled. */
  lemma BacktestFillsOneLeg(
    initial: map<string, real>, stream: seq<Candle>, setups: map<Pair, Setup>, script: nat -> seq<Command>,
    i: nat, j: nat)
    requires forall a :: a in initial ==> initial[a] >= 0.0
    requires LongOnlyStrategy(Opening(initial), stream, setups, script)
    requires var o := Replay(Opening(initial), stream, setups, script).orders;
      i < |o| && j < |o| && InGroup(o[j], o[i])
    ensures var o := Replay(Opening(initial), stream, setups, script).orders;
      && (o[i].status == Filled <==> o[j].status == Canceled)
      && (o[i].status == Canceled <==> o[j].status == Filled)
  {
    hide Opening, Replay, Sound, LongOnlyStrategy;
    OpeningIsSound(initial);
    BacktestKeepsSound(Opening(initial), initial, stream, setups, script);
    LegsSettleTogether(Replay(Opening(initial), stream, setups, script), initial, i, j);
  }

  lemma {:induction false} RequestsSettle(b: Book, initial: map<string, real>, cmds: seq<Command>, i: nat)
    requires Sound(b, initial) && LongOnlyRequests(b, cmds) && i < |b.orders| && b.orders[i].status != New
    ensures i < |ObeyAll(b, cmds).orders| && ObeyAll(b, cmds).orders[i].status == b.orders[i].status
  {
    hide Sound, Step, Allowed, Doable;
    if cmds != [] {
      var init, cmd := cmds[..|cmds|-1], cmds[|cmds|-1];
      RequestsSettle(b, initial, init, i);
      RequestsKeepSound(b, initial, init);
      if Doable(ObeyAll(b, init), cmd) { StepSettles(ObeyAll(b, init), initial, cmd, i); }
    }
  }

  lemma TickSettles(b: Book, initial: map<string, real>, c: Candle, i: nat)
    requires Sound(b, initial) && i < |b.orders| && b.orders[i].status != New
    ensures i < |Tick(b, c).orders| && Tick(b, c).orders[i].status == b.orders[i].status
  {
    hide Sound, Tick;
    StepSettles(b, initial, NewCandle(c), i);
  }

  /** What is settled after n candles of such a backtest stays so for good. */
  lemma {:induction false} BacktestSettlesForGood(
    b: Book, initial: map<string, real>, stream: seq<Candle>, setups: map<Pair, Setup>, script: nat -> seq<Command>,
    n: nat, i: nat)
    requires Sound(b, initial) && LongOnlyStrategy(b, stream, setups, script) && n <= |stream|
    requires var o := Replay(b, stream[..n], setups, script).orders; i < |o| && o[i].status != New
    ensures var o, p := Replay(b, stream[..n], setups, script).orders, Replay(b, stream, setups, script).orders;
      i < |p| && p[i].status == o[i].status
  {
    hide Sound, Tick, Calls, LongOnlyRequests, ObeyAll;
    if n == |stream| {
      assert stream[..n] == stream;
    } else {
      var init, c := stream[..|stream|-1], stream[|stream|-1];
      assert init[..n] == stream[..n];
      BacktestSettlesForGood(b, initial, init, setups, script, n, i);
      BacktestKeepsSound(b, initial, init, setups, script);
      var before := Replay(b, init, setups, script);
      TickSettles(before, initial, c, i);
      TickKeepsSound(before, initial, c);
      if Calls(init, c, setups) { RequestsSettle(Tick(before, c), initial, script(|init|), i); }
    }
  }

  /** Which candles of a backtest call their strategy, when the feeds are as resampling makes them. */
  lemma CallsWhenWarm(stream: seq<Candle>, c: Candle, setups: map<Pair, Setup>)
    requires Phased(Only(stream + [c], c.pair))
    ensures Calls(stream, c, setups) <==> c.pair in setups && Warm(Only(stream, c.pair), c, setups[c.pair])
  {
    hide Phased, Completes, ConsumeAll, Called, Only;
    var feed := Only(stream, c.pair);
    OneMoreCandle(stream, c);
    if c.pair in setups {
      var s, longer := setups[c.pair], feed + [c];
      assert longer[..|feed|] == feed && longer[..|feed| + 1] == longer;
      CalledWhenWarm(longer, s.warmup, s.highFrequency, s.started, |feed|);
      CompletesNext(longer);
    }
  }

  /** The strategy is started, for a complete candle, or high-frequency, for a partial one, and has seen as many
      complete candles as its warm-up asks for, a complete one included. */
  predicate Warm(feed: seq<Candle>, c: Candle, s: Setup) {
    var done := Completes(feed);
    if c.complete then s.started && |done| + 1 >= s.warmup else s.highFrequency && |done| >= s.warmup
  }

  lemma OneMoreCandle(stream: seq<Candle>, c: Candle)
    ensures Only(stream + [c], c.pair) == Only(stream, c.pair) + [c]
  {
    assert (stream + [c])[..|stream|] == stream;
  }

  /** Whatever a long-only caller may ask for can be made. */
  lemma AllowedIsDoable(b: Book, cmd: Command)
    requires Allowed(b, cmd) && !cmd.NewCandle?
    ensures Doable(b, cmd)
  {
  }
}
