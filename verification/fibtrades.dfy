/** The trades of a Fibonacci backtest against the simulated exchange: what is bought, and how each trade ends. */
module FibonacciTrades {
  import opened Types
  import opened WalletSpec
  import opened WalletShape
  import opened LongOnly
  import opened Funding
  import opened Feed
  import opened Dataframes
  import opened Pipeline
  import opened Backtests
  import opened Executions
  import opened Fibonacci
  import opened Delivery
  import opened FibonacciSignals
  import opened FibonacciBacktests

  // ----- what is bought -----

  /** The complete candles of the pair up to candle k, which the strategy sees when it is called on candle k. */
  function RowsAt(stream: seq<Candle>, k: nat): seq<Candle>
    requires k < |stream|
  {
    Completes(Only(stream[..k + 1], stream[k].pair))
  }

  lemma RowsEndWithTheCandle(stream: seq<Candle>, k: nat, setups: map<Pair, Setup>, cfg: Config)
    requires k < |stream| && Fitting(stream, setups, cfg) && stream[k].pair in setups && stream[k].complete
    ensures var rows := RowsAt(stream, k);
      && rows != [] && rows[|rows| - 1] == stream[k]
      && FrameAt(stream[..k], stream[k], cfg) == FrameOf(stream[k].pair, rows, cfg.ema(rows), cfg.atr(rows))
      && |cfg.ema(rows)| == |cfg.atr(rows)| == |rows| && Fibonacci.Regular(FrameAt(stream[..k], stream[k], cfg))
  {
    hide Only, Phased, ConsumeAll, Completes, FrameOf, Fibonacci.Regular;
    var p := stream[k].pair;
    var feed, n := Only(stream, p), |Only(stream[..k], p)|;
    OnlyUpTo(stream, k);
    assert stream[..k] + [stream[k]] == stream[..k + 1];
    DataframeIgnoresPartials(feed, cfg.warmup, false, n);
    CompletesNext(feed[..n + 1]);
    CompletesIncrease(feed, n + 1);
    var rows := RowsAt(stream, k);
    FrameIsRegular(p, rows, cfg.ema(rows), cfg.atr(rows));
  }

  lemma FrameIsRegular(pair: Pair, rows: seq<Candle>, ema: seq<real>, atr: seq<real>)
    requires |ema| == |atr| == |rows| && forall i, j :: 0 <= i < j < |rows| ==> rows[i].time < rows[j].time
    ensures Fibonacci.Regular(FrameOf(pair, rows, ema, atr))
  {
  }

  /** Every buy of a backtest is made in an uptrend, on a green candle that closes between stop and take profit, while
      nearly nothing of the asset is owned, locked amounts included. The take profit is the high of a candle of the
      last twenty, and the stop lies below the last two lows. */
  lemma BuysInAnUptrend(d: Desk, stream: seq<Candle>, k: nat, setups: map<Pair, Setup>, cfg: Config)
    requires k < |stream| && Fitting(stream, setups, cfg) && ActionOf(d, stream, k, setups, cfg).Bought?
    ensures var c, a, rows := stream[k], ActionOf(d, stream, k, setups, cfg), RowsAt(stream, k);
      var i, b := |rows| - 1, Tick(DeskAfter(d, stream[..k], setups, cfg).book, c);
      && c.complete && i >= 1 && rows[i] == c && |cfg.ema(rows)| == |rows|
      && cfg.ema(rows)[i] < c.close && c.open < c.close && a.stop < c.close < a.take
      && a.stop < rows[i - 1].low && a.stop < c.low
      && a.leg.Leg? && a.leg.highIdx < i <= a.leg.highIdx + 20 && a.take == rows[a.leg.highIdx].high
      && Worth(Owned(b, c.pair.asset), c.close) < 10.0 && 10.0 <= Owned(b, c.pair.quote)
  {
    hide Fitting, Calls, Tick, DeskAfter, ActionOf, RowsAt, Owned, BrokerOf, BuyIsSound, Worth;
    var c, rows := stream[k], RowsAt(stream, k);
    var b := Tick(DeskAfter(d, stream[..k], setups, cfg).book, c);
    BoughtOnRows(d, stream, k, setups, cfg);
    FrameShowsRows(c.pair, rows, cfg.ema(rows), cfg.atr(rows), ActionOf(d, stream, k, setups, cfg),
                   BrokerOf(b, c.pair, cfg));
    BrokerShowsWallet(b, c.pair, cfg);
  }

  lemma BoughtOnRows(d: Desk, stream: seq<Candle>, k: nat, setups: map<Pair, Setup>, cfg: Config)
    requires k < |stream| && Fitting(stream, setups, cfg) && ActionOf(d, stream, k, setups, cfg).Bought?
    ensures var c, rows := stream[k], RowsAt(stream, k);
      && c.complete && rows != [] && rows[|rows| - 1] == c
      && BuyIsSound(FrameOf(c.pair, rows, cfg.ema(rows), cfg.atr(rows)), ActionOf(d, stream, k, setups, cfg),
                    BrokerOf(Tick(DeskAfter(d, stream[..k], setups, cfg).book, c), c.pair, cfg))
  {
    hide Fitting, Calls, Tick, DeskAfter, Act, RowsAt, FrameAt, FrameOf, BrokerOf, BuyIsSound, Fibonacci.Regular;
    var c, before := stream[k], DeskAfter(d, stream[..k], setups, cfg);
    CalledOnComplete(stream, k, setups, cfg);
    RowsEndWithTheCandle(stream, k, setups, cfg);
    var broker := BrokerOf(Tick(before.book, c), c.pair, cfg);
    BoughtOn(FrameAt(stream[..k], c, cfg), before.traded, broker, cfg.pivot, cfg.level);
  }

  /** What a buy says about the dataframe. */
  predicate BuyIsSound(f: Frame, a: Action, b: Broker) {
    && a.Bought? && a.leg.Leg? && b.position.Some?
    && |f.close| == |f.ema| == |f.open| == |f.low| == |f.high|
    && var i := |f.close| - 1;
       && i >= 1 && a.leg.highIdx < i <= a.leg.highIdx + 20
       && f.ema[i] < f.close[i] && f.open[i] < f.close[i] && a.stop < f.close[i] < a.take
       && a.stop < f.low[i - 1] && a.stop < f.low[i] && a.take == f.high[a.leg.highIdx]
       && Worth(b.position.value.0, f.close[i]) < 10.0 && b.position.value.1 >= 10.0
  }

  lemma BoughtOn(f: Frame, traded: map<Pair, int>, b: Broker, pivot: nat, entry: real)
    requires Fibonacci.Regular(f) && Act(f, traded, b, pivot, entry).Bought?
    ensures BuyIsSound(f, Act(f, traded, b, pivot, entry), b)
  {
    hide After, Act, Level, StrictlyIncreasing, SoundLow, SoundPivot, FibLevel;
    BuysIff(f, traded, b, pivot, entry);
    BracketStraddlesEntry(f, traded, b, pivot, entry);
    LegsAreSound(f.high, f.low, pivot, |f.close| - 1);
  }

  lemma FrameShowsRows(pair: Pair, rows: seq<Candle>, ema: seq<real>, atr: seq<real>, a: Action, b: Broker)
    requires BuyIsSound(FrameOf(pair, rows, ema, atr), a, b)
    ensures a.Bought? && a.leg.Leg? && b.position.Some? && |ema| == |rows|
    ensures var i := |rows| - 1;
      && i >= 1 && a.leg.highIdx < i <= a.leg.highIdx + 20
      && ema[i] < rows[i].close && rows[i].open < rows[i].close && a.stop < rows[i].close < a.take
      && a.stop < rows[i - 1].low && a.stop < rows[i].low && a.take == rows[a.leg.highIdx].high
      && Worth(b.position.value.0, rows[i].close) < 10.0 && b.position.value.1 >= 10.0
  {
    hide Worth;
  }

  lemma BrokerShowsWallet(b: Book, pair: Pair, cfg: Config)
    ensures BrokerOf(b, pair, cfg).position == Some((Owned(b, pair.asset), Owned(b, pair.quote)))
  {
    hide Accepts;
  }

  lemma CalledOnComplete(stream: seq<Candle>, k: nat, setups: map<Pair, Setup>, cfg: Config)
    requires k < |stream| && Fitting(stream, setups, cfg) && Calls(stream[..k], stream[k], setups)
    ensures stream[k].pair in setups && stream[k].complete
  {
    hide Phased, Only, ConsumeAll;
  }

  // ----- how a trade ends -----

  /** The executed buy and the pending group that sells it. */
  ghost predicate Bracketed(before: seq<Order>, after: seq<Order>, c: Candle, a: Action) {
    var n := |before|;
    && a.Bought? && |after| == n + 3 && after[..n] == before
    && Buys(after[n], c, a.size)
    && Sells(after[n + 1], c, a.size) && after[n + 1].typ == LimitMaker && after[n + 1].price == a.take
    && Sells(after[n + 2], c, a.size) && after[n + 2].typ == StopLoss && after[n + 2].stop == Some(a.stop)
    && after[n + 2].price == a.stop && PendingGroup(after, n + 1, n + 2)
  }

  predicate Buys(o: Order, c: Candle, size: real) {
    && o.pair == c.pair && o.side == Buy && o.status == Filled && o.quantity == size && o.price == c.close
    && o.createdAt == c.time
  }

  predicate Sells(o: Order, c: Candle, size: real) {
    o.pair == c.pair && o.side == Sell && o.status == New && o.quantity == size && o.createdAt == c.time
  }

  /** A buy that the wallet accepts is executed at the close. */
  lemma BuyIsExecuted(b: Book, c: Candle, size: real)
    requires Close(b, c.pair) == c.close && Clock(b, c.pair) == c.time && size > 0.0
    requires Accepts(b, Buy, c.pair, size, c.close) && c.pair.asset != c.pair.quote && Free(b, c.pair.asset) >= 0.0
    requires c.close > 0.0
    ensures var r := Step(b, MarketOrder(Buy, c.pair, size));
      && |r.orders| == |b.orders| + 1 && r.orders[..|b.orders|] == b.orders
      && Buys(r.orders[|b.orders|], c, size) && Free(r, c.pair.asset) >= size && r.last == b.last
  {
    FundingIsExact(b, Buy, c.pair, size, c.close, true, c.pair.asset);
    hide Fund, Accepts, Touch;
  }

  /** The group that sells what is freely owned is stored. */
  lemma GroupIsStored(b: Book, c: Candle, size: real, take: real, stop: real)
    requires WellFormed(b) && Clock(b, c.pair) == c.time && size > 0.0 && c.pair.asset != c.pair.quote && take > 0.0
    requires Free(b, c.pair.asset) >= size && Free(b, c.pair.quote) >= 0.0
    ensures var r, n := Step(b, OcoOrder(c.pair, size, take, stop, stop)).orders, |b.orders|;
      && |r| == n + 2 && r[..n] == b.orders
      && Sells(r[n], c, size) && r[n].typ == LimitMaker && r[n].price == take
      && Sells(r[n + 1], c, size) && r[n + 1].typ == StopLoss
      && r[n + 1].stop == Some(stop) && r[n + 1].price == stop && PendingGroup(r, n, n + 1)
  {
    hide Fund, Accepts, Touch, WellFormed;
    WithinMeans(b, Terms(Sell, c.pair, size, take, false));
  }

  /** So every buy of the strategy puts its bracket on the exchange. */
  lemma TradeIsBracketed(d: Desk, initial: map<string, real>, stream: seq<Candle>, k: nat, setups: map<Pair, Setup>,
                         cfg: Config)
    requires k < |stream| && Priced(stream) && Sound(d.book, initial)
    requires ActionOf(d, stream, k, setups, cfg).Bought?
    ensures Bracketed(Tick(DeskAfter(d, stream[..k], setups, cfg).book, stream[k]).orders,
                      DeskAfter(d, stream[..k + 1], setups, cfg).book.orders,
                      stream[k], ActionOf(d, stream, k, setups, cfg))
  {
    hide Sound, Tick, DeskAfter, Calls, Act, FrameAt, LongOnlyRequests, Bracketed, ObeyAll;
    var c, a, before := stream[k], ActionOf(d, stream, k, setups, cfg), DeskAfter(d, stream[..k], setups, cfg);
    DeskNext(d, stream, k, setups, cfg);
    DeskIsSound(d, initial, stream, k, setups, cfg);
    TickKeepsSound(before.book, initial, c);
    TickCloses(before.book, c);
    TickClocks(before.book, c);
    LowsArePositive(stream, k, cfg);
    var b, f := Tick(before.book, c), FrameAt(stream[..k], c, cfg);
    BracketIsPositive(f, before.traded, BrokerOf(b, c.pair, cfg), cfg.pivot, cfg.level);
    BoughtAsAnswered(f, before.traded, BrokerOf(b, c.pair, cfg), cfg.pivot, cfg.level);
    AnswersAreAccepted(b, c, cfg);
    BracketIsPlaced(b, initial, c, a);
  }

  lemma DeskIsSound(d: Desk, initial: map<string, real>, stream: seq<Candle>, k: nat, setups: map<Pair, Setup>,
                    cfg: Config)
    requires k <= |stream| && Priced(stream) && Sound(d.book, initial)
    ensures Sound(DeskAfter(d, stream[..k], setups, cfg).book, initial)
  {
    hide Sound, DeskAfter, LongOnlyStrategy, ScriptOf;
    FibonacciIsLongOnly(d, initial, stream, k, setups, cfg);
    BacktestKeepsSound(d.book, initial, stream[..k], setups, ScriptOf(d, stream, setups, cfg));
    DeskIsReplay(d, stream, k, setups, cfg);
  }

  lemma TickClocks(b: Book, c: Candle)
    ensures Clock(Tick(b, c), c.pair) == c.time
  {
    ScanKeepsCandles(b.(last := b.last[c.pair := c]), c, |b.orders|);
  }

  lemma AnswersAreAccepted(b: Book, c: Candle, cfg: Config)
    requires Close(b, c.pair) == c.close
    ensures var bought := BrokerOf(b, c.pair, cfg).bought;
      bought.Some? ==> bought.value > 0.0 && Accepts(b, Buy, c.pair, bought.value, c.close)
  {
    hide Accepts;
  }

  lemma BracketIsPlaced(b: Book, initial: map<string, real>, c: Candle, a: Action)
    requires Sound(b, initial) && a.Bought? && a.size > 0.0 && a.take > 0.0 && a.stop > 0.0
    requires c.pair.asset != c.pair.quote && c.close > 0.0 && Close(b, c.pair) == c.close && Clock(b, c.pair) == c.time
    requires Accepts(b, Buy, c.pair, a.size, c.close)
    ensures Bracketed(b.orders, ObeyAll(b, Requests(c.pair, a)).orders, c, a)
  {
    hide Sound, Step, Accepts, InGroup, Buys, Sells, Allowed;
    var buy, oco := MarketOrder(Buy, c.pair, a.size), OcoOrder(c.pair, a.size, a.take, a.stop, a.stop);
    SoundFacts(b, initial, c.pair.asset);
    BuyIsExecuted(b, c, a.size);
    BuyIsAllowed(b, c, a.size);
    StepKeepsSound(b, initial, buy);
    var mid := Step(b, buy);
    SoundFacts(mid, initial, c.pair.quote);
    GroupIsStored(mid, c, a.size, a.take, a.stop);
    ObeyTwo(b, buy, oco);
    var r, n := Step(mid, oco).orders, |b.orders|;
    assert r[..n] == r[..n + 1][..n] && r[n] == r[..n + 1][n];
  }

  lemma SoundFacts(b: Book, initial: map<string, real>, coin: string)
    requires Sound(b, initial)
    ensures WellFormed(b) && Free(b, coin) >= 0.0
  {
    assert Balanced(b, initial, coin);
  }

  lemma BuyIsAllowed(b: Book, c: Candle, size: real)
    requires Close(b, c.pair) == c.close > 0.0 && c.pair.asset != c.pair.quote && size > 0.0
    ensures Allowed(b, MarketOrder(Buy, c.pair, size))
  {
  }

  lemma ObeyTwo(b: Book, first: Command, second: Command)
    ensures ObeyAll(b, [first, second]) == Obey(Obey(b, first), second)
  {
    hide Obey;
    assert [first, second][..1] == [first] && [first][..0] == [];
    assert ObeyAll(b, [first]) == Obey(b, first);
  }

  /** The high stays below the take profit and the low above the stop on all candles of the pair between k and m. */
  predicate Untouched(stream: seq<Candle>, k: nat, m: nat, p: Pair, take: real, stop: real)
    requires m <= |stream|
  {
    forall l :: k < l < m && stream[l].pair == p ==> stop < stream[l].low && stream[l].high < take
  }

  /** Candle m is the first after k that touches one of them. */
  predicate Exits(stream: seq<Candle>, k: nat, m: nat, p: Pair, take: real, stop: real) {
    && k < m < |stream| && stream[m].pair == p && (take <= stream[m].high || stream[m].low <= stop)
    && Untouched(stream, k, m, p, take, stop)
  }

  /** The statuses of the take profit and of the stop at the end of the stream. */
  ghost predicate Ended(stream: seq<Candle>, k: nat, p: Pair, take: real, stop: real, first: Status, second: Status) {
    && (first == Filled <==> exists m: nat :: Exits(stream, k, m, p, take, stop) && take <= stream[m].high)
    && (second == Filled <==> exists m: nat :: Exits(stream, k, m, p, take, stop) && stream[m].high < take)
    && (first == Canceled <==> second == Filled) && (second == Canceled <==> first == Filled)
    && (first == New <==> Untouched(stream, k, |stream|, p, take, stop)) && (first == New <==> second == New)
  }

  lemma ReachesLegs(c: Candle, maker: Order, stopper: Order, p: Pair, take: real, stop: real)
    requires maker.pair == stopper.pair == p && maker.side == stopper.side == Sell
    requires maker.typ == LimitMaker && maker.price == take && stopper.typ == StopLoss && stopper.stop == Some(stop)
    ensures Reaches(c, maker) <==> c.pair == p && take <= c.high
    ensures Reaches(c, stopper) <==> c.pair == p && c.low <= stop
  {
  }

  lemma EndsOfLegs(stream: seq<Candle>, k: nat, maker: Order, stopper: Order, p: Pair, take: real, stop: real,
                   first: Status, second: Status)
    requires maker.pair == stopper.pair == p && maker.side == stopper.side == Sell
    requires maker.typ == LimitMaker && maker.price == take && stopper.typ == StopLoss && stopper.stop == Some(stop)
    requires GroupEnds(stream, k + 1, maker, stopper, first, second)
    ensures Ended(stream, k, p, take, stop, first, second)
  {
    forall c: Candle
      ensures Reaches(c, maker) <==> c.pair == p && take <= c.high
      ensures Reaches(c, stopper) <==> c.pair == p && c.low <= stop
    {
      ReachesLegs(c, maker, stopper, p, take, stop);
    }
    hide Reaches;
    forall m: nat ensures FirstOfEither(stream, k + 1, m, maker, stopper) <==> Exits(stream, k, m, p, take, stop) {}
    forall m: nat, n: nat | Exits(stream, k, m, p, take, stop) && Exits(stream, k, n, p, take, stop) ensures m == n {
      ExitIsUnique(stream, k, m, n, p, take, stop);
    }
    if m: nat :| Exits(stream, k, m, p, take, stop) {
      assert !Untouched(stream, k, |stream|, p, take, stop);
      assert Reaches(stream[m], maker) || Reaches(stream[m], stopper);
    }
    hide FirstOfEither, Exits, Untouched;
  }

  lemma ExitIsUnique(stream: seq<Candle>, k: nat, m: nat, n: nat, p: Pair, take: real, stop: real)
    requires Exits(stream, k, m, p, take, stop) && Exits(stream, k, n, p, take, stop)
    ensures m == n
  {
  }

  lemma NothingIsWithdrawn(d: Desk, stream: seq<Candle>, setups: map<Pair, Setup>, cfg: Config, m: nat, i: nat)
    ensures Withdraw(i) !in ScriptOf(d, stream, setups, cfg)(m)
  {
    hide ActionOn, DeskAfter;
  }

  /** How every trade of a backtest ends. The candle that first reaches the take profit or the stop after the buy sells
      what was bought: at the take profit, the swing high, if its high gets there, even if its low reaches the stop
      too, else at the stop. Until then the whole bracket waits. */
  lemma TradeEnds(d: Desk, initial: map<string, real>, stream: seq<Candle>, k: nat, setups: map<Pair, Setup>,
                  cfg: Config)
    requires k < |stream| && Priced(stream) && Sound(d.book, initial)
    requires ActionOf(d, stream, k, setups, cfg).Bought?
    ensures var a, r := ActionOf(d, stream, k, setups, cfg), DeskAfter(d, stream, setups, cfg).book.orders;
      var i := |Tick(DeskAfter(d, stream[..k], setups, cfg).book, stream[k]).orders| + 1;
      && i + 1 < |r| && r[i].quantity == r[i + 1].quantity == a.size
      && Ended(stream, k, stream[k].pair, a.take, a.stop, r[i].status, r[i + 1].status)
  {
    hide Sound, Tick, DeskAfter, Calls, ActionOf, ScriptOf, GroupEnds, Replay, InGroup;
    var a, script := ActionOf(d, stream, k, setups, cfg), ScriptOf(d, stream, setups, cfg);
    var before := Tick(DeskAfter(d, stream[..k], setups, cfg).book, stream[k]).orders;
    var i := |before| + 1;
    TradeIsBracketed(d, initial, stream, k, setups, cfg);
    DeskIsReplay(d, stream, k + 1, setups, cfg);
    DeskIsReplay(d, stream, |stream|, setups, cfg);
    assert stream[..|stream|] == stream;
    forall m | k + 1 <= m < |stream| ensures Withdraw(i) !in script(m) && Withdraw(i + 1) !in script(m) {
      NothingIsWithdrawn(d, stream, setups, cfg, m, i);
      NothingIsWithdrawn(d, stream, setups, cfg, m, i + 1);
    }
    SoundFacts(d.book, initial, "");
    GroupExits(d.book, stream, setups, script, k + 1, i, i + 1);
    var bought := DeskAfter(d, stream[..k + 1], setups, cfg).book.orders;
    var r := DeskAfter(d, stream, setups, cfg).book.orders;
    EndsOfLegs(stream, k, bought[i], bought[i + 1], stream[k].pair, a.take, a.stop, r[i].status, r[i + 1].status);
  }
}
