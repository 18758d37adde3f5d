/** A backtest: candles leave the queue one by one, the exchange matches, the controller settles, and
    only then does the strategy trade. */
module Ninjabot {
  import opened Types
  import opened Ledger
  import opened WalletSpec
  import opened WalletShape
  import opened PaperWallets
  import opened Positions
  import opened Controllers
  import opened Settlements
  import opened PriorityQueues
  import opened LongOnly
  import opened Sorting
  import opened Dataframes
  import opened Pipeline
  import opened Backtests

  lemma NettedIsNetOfRows(c: Controller, p: Pair)
    requires c.Netted()
    ensures SignedSize(c.Positions(), p) == Sum(Signed(p), c.storage.rows)
  {
    hide ApplyAll, FilledOnly, Sum, Weight, SignedSize;
    PositionsAreNetOfFills(map[], c.applied, p);
    NothingHeld(p);
    SumIgnoresOrder(Signed(p), c.applied, FilledOnly(c.storage.rows));
    FilledKeepsSum(p, c.storage.rows);
  }

  lemma NothingHeld(p: Pair)
    ensures SignedSize(map[], p) == 0.0
  {
  }

  /** The positions of a linked controller are the net of the exchange's filled orders: no fill is
      missed and none is counted twice. */
  lemma PositionsAreNetOfExchange(c: Controller, p: Pair)
    requires c.Linked()
    ensures SignedSize(c.Positions(), p) == Sum(Signed(p), c.exchange.orders)
  {
    NettedIsNetOfRows(c, p);
    forall k | 0 <= k < |c.storage.rows|
      ensures Weight(Signed(p), c.storage.rows[k]) == Weight(Signed(p), c.exchange.orders[k])
    {
      assert RowOf(c.storage.rows[k], c.exchange.orders[k], k + 1);
    }
    SumAgrees(Signed(p), c.storage.rows, c.exchange.orders);
  }

  // ----- restoring the positions from storage -----

  lemma RowsAreDistinguished(rows: seq<Order>, orders: seq<Order>)
    requires Aligned(rows, orders)
    ensures Distinguished(FilledOnly(rows))
  {
    var filled := FilledOnly(rows);
    hide Before;
    FilledIdsDiffer(rows);
    forall i, j | 0 <= i < j < |filled| ensures Before(filled[i], filled[j]) || Before(filled[j], filled[i]) {
      DifferentIdsCompare(filled[i], filled[j]);
    }
  }

  lemma DifferentIdsCompare(a: Order, b: Order)
    requires a.id != b.id
    ensures Before(a, b) || Before(b, a)
  {
  }

  lemma {:induction false} FilledIdsDiffer(rows: seq<Order>)
    requires forall k :: 0 <= k < |rows| ==> rows[k].id == k + 1
    ensures forall i, j :: 0 <= i < j < |FilledOnly(rows)| ==> FilledOnly(rows)[i].id != FilledOnly(rows)[j].id
    ensures forall i :: 0 <= i < |FilledOnly(rows)| ==> FilledOnly(rows)[i].id <= |rows|
  {
    if rows != [] { FilledIdsDiffer(rows[..|rows|-1]); }
  }

  lemma AppliedAreTheFills(c: Controller)
    requires c.Netted()
    ensures FillsOf(c.storage.rows, c.applied)
  {
    forall o: Order
      ensures multiset(c.applied)[o] == if o.status == Filled then multiset(c.storage.rows)[o] else 0
    {
      FilledElements(c.storage.rows, o);
    }
  }

  /** Positions rebuilt from a controller's storage have the live sizes, whatever the order in which its fills
      were processed; and a pair's position is rebuilt exactly as it is when the fills of that pair were
      processed in order of creation. */
  lemma StorageRestoresPositions(c: Controller, p: Pair)
    requires c.Linked()
    ensures SignedSize(Restored(c.storage.rows), p) == SignedSize(c.Positions(), p)
    ensures p in Restored(c.storage.rows) <==> p in c.Positions()
    ensures Chronological(OfPair(c.applied, p)) ==> SameAt(Restored(c.storage.rows), c.Positions(), p)
  {
    hide ApplyAll, FilledOnly, Restored, Chronological, FillsOf, Following, WellFormed, IndexCovers, OfPair;
    AppliedAreTheFills(c);
    RestoreKeepsSizes(c.storage.rows, c.applied, p);
    RowsAreDistinguished(c.storage.rows, c.exchange.orders);
    if Chronological(OfPair(c.applied, p)) { RestoreReproducesPair(c.storage.rows, c.applied, p); }
  }

  // ----- one round -----

  /** A controller whose rows have the exchange's status is in step with it. */
  lemma SettledIsLinked(c: Controller)
    requires c.Netted() && c.exchange.Valid()
    requires Aligned(c.storage.rows, c.exchange.orders) && SameStatus(c.storage.rows, c.exchange.orders)
    ensures c.Linked()
    ensures forall p :: SignedSize(c.Positions(), p) == Sum(Signed(p), c.exchange.orders)
  {
    hide Controller.Netted, PaperWallet.Valid, Aligned, SignedSize, Sum;
    assert c.Linked();
    AllPositionsAreNet(c);
  }

  /** With an empty index the rows are up to date and a candle matches nothing. */
  lemma NothingPending(b: Book, rows: seq<Order>, index: map<Pair, seq<nat>>, candle: Candle)
    requires WellFormed(b) && Following(rows, b.orders, index) && IndexCovers(b.orders, index)
    requires !exists p :: p in index && index[p] != []
    ensures Tick(b, candle).orders == b.orders && SameStatus(rows, b.orders)
  {
    forall k | 0 <= k < |rows| ensures rows[k].status == b.orders[k].status {
      if rows[k].status != b.orders[k].status { assert false; }
    }
    forall k | 0 <= k < |b.orders| ensures b.orders[k].status != New {
      if b.orders[k].status == New { assert false; }
    }
    ScanSkips(b.(last := b.last[candle.pair := candle]), candle, 0, |b.orders|);
  }

  /** After a candle, a row that differs from the exchange is a pending one. */
  lemma OnlyPendingLags(b: Book, rows: seq<Order>, index: map<Pair, seq<nat>>, candle: Candle)
    requires WellFormed(b) && Aligned(rows, b.orders) && Following(rows, b.orders, index)
    ensures var r := Tick(b, candle);
      WellFormed(r) && Aligned(rows, r.orders) && LagIsPending(rows, r.orders)
  {
    var t := b.(last := b.last[candle.pair := candle]);
    assert WellFormed(t);
    ScanKeepsShape(t, candle, |b.orders|);
    hide WellFormed, Scan;
    forall k | 0 <= k < |rows|
      ensures RowOf(rows[k], Tick(b, candle).orders[k], k + 1)
      ensures Pending(rows[k].status) || rows[k].status == Tick(b, candle).orders[k].status
    {
      assert RowOf(rows[k], b.orders[k], k + 1);
    }
  }

  /** One candle of a backtest, up to the strategy. Afterwards every stored order has the exchange's
      status and the positions include each fill of this candle exactly once. */
  method Settle(c: Controller, candle: Candle)
    requires c.Linked()
    modifies c`position, c`applied, c.position.Values, c.storage, c.exchange
    ensures c.Linked() && fresh(c.position.Values - old(c.position.Values))
    ensures SameStatus(c.storage.rows, c.exchange.orders)
    ensures c.exchange.View() == Tick(old(c.exchange.View()), candle)
    ensures forall p :: SignedSize(c.Positions(), p) == Sum(Signed(p), c.exchange.orders)
    ensures old(c.Immediate()) ==> c.Immediate()
  {
    hide WellFormed, Tick, Following, LagIsPending, SignedSize, SameStatus, IndexCovers, Aligned, InSequence;
    hide Controller.Netted, Controller.Immediate, FilledOnly, ApplyAll, Sum;
    CandleLags(c, candle);
    var pending := c.exchange.HasPendingOrders();
    c.exchange.OnCandle(candle);
    if pending { CatchUp(c); }
    SettledIsLinked(c);
  }

  /** The settlement of a controller whose storage holds the rows of its own wallet: none lags afterwards. */
  method CatchUp(c: Controller)
    requires c.Netted() && c.exchange.Valid() && Aligned(c.storage.rows, c.exchange.orders)
    requires LagIsPending(c.storage.rows, c.exchange.orders)
    modifies c`position, c`applied, c.position.Values, c.storage
    ensures c.Netted() && fresh(c.position.Values - old(c.position.Values))
    ensures Aligned(c.storage.rows, c.exchange.orders) && SameStatus(c.storage.rows, c.exchange.orders)
    ensures old(c.Immediate()) ==> c.Immediate()
  {
    hide WellFormed, IndexCovers, LagIsPending, SameStatus, Aligned, InSequence, Collected, FilledOnly, ApplyAll;
    hide Controller.Logged;
    ghost var rows, before := c.storage.rows, c.applied;
    AlignedIds(rows, c.exchange.orders);
    OwnRowsFollow(rows, c.exchange.View());
    if c.Immediate() { ImmediateNeverPends(c); }
    c.UpdateOrders();
    if before == rows {
      NothingPendsNothingMoves(rows, c.exchange.orders);
      NoFilled();
      assert |c.applied[|before|..]| == |multiset(c.applied[|before|..])| == 0;
    }
  }

  /** After the candle only pending rows may lag, and without an index none does. */
  lemma CandleLags(c: Controller, candle: Candle)
    requires c.Linked()
    ensures var r := Tick(c.exchange.View(), candle);
      && WellFormed(r) && Aligned(c.storage.rows, r.orders) && LagIsPending(c.storage.rows, r.orders)
      && ((exists p :: p in c.exchange.pendingOrders && c.exchange.pendingOrders[p] != [])
          || SameStatus(c.storage.rows, r.orders))
  {
    hide WellFormed, Tick, Following, Aligned, IndexCovers, SameStatus, Controller.Netted, LagIsPending;
    OnlyPendingLags(c.exchange.View(), c.storage.rows, c.exchange.pendingOrders, candle);
    if !exists p :: p in c.exchange.pendingOrders && c.exchange.pendingOrders[p] != [] {
      NothingPending(c.exchange.View(), c.storage.rows, c.exchange.pendingOrders, candle);
    }
  }

  /** Where every fill was applied as soon as it was stored, no row waits. */
  lemma ImmediateNeverPends(c: Controller)
    requires c.Netted() && c.Immediate()
    ensures NothingPends(c.storage.rows)
  {
  }

  /** A pending order of the exchange is stored as pending. */
  lemma PendingIsStored(c: Controller, i: nat)
    requires c.Linked() && i < |c.exchange.orders| && c.exchange.orders[i].status == New
    ensures i < |c.storage.rows| && c.storage.rows[i].status == New && c.storage.rows[i].id == i + 1
  {
    assert RowOf(c.storage.rows[i], c.exchange.orders[i], i + 1);
  }

  method Execute(c: Controller, cmd: Command)
    requires c.Linked() && Doable(c.exchange.View(), cmd)
    modifies c`position, c`applied, c.position.Values, c.storage, c.exchange
    ensures c.Linked() && fresh(c.position.Values - old(c.position.Values))
    ensures c.exchange.View() == Step(old(c.exchange.View()), cmd)
    ensures cmd.MarketOrder? && old(c.Immediate()) ==> c.Immediate()
  {
    match cmd
    case LimitOrder(side, p, size, price) => var _ := c.CreateOrderLimit(side, p, size, price);
    case StopOrder(p, size, price) => var _ := c.CreateOrderStop(p, size, price);
    case OcoOrder(p, size, price, stop, stopLimit) =>
      var _ := c.CreateOrderOCO(Sell, p, size, price, stop, stopLimit);
    case MarketOrder(side, p, size) => var _ := c.CreateOrderMarket(side, p, size);
    case Withdraw(i) =>
      PendingIsStored(c, i);
      c.Cancel(c.storage.rows[i]);
  }

  /** Whether the controller can carry the request out. */
  method Check(c: Controller, cmd: Command) returns (ok: bool)
    ensures ok == Doable(c.exchange.View(), cmd)
  {
    match cmd
    case LimitOrder(_, p, size, _) => ok := size >= 0.0 && p.asset != p.quote;
    case StopOrder(p, size, _) => ok := size >= 0.0 && p.asset != p.quote;
    case OcoOrder(p, size, _, _, _) => ok := size >= 0.0 && p.asset != p.quote;
    case MarketOrder(_, p, size) => ok := size >= 0.0 && p.asset != p.quote;
    case Withdraw(i) => ok := i < |c.exchange.orders| && c.exchange.orders[i].status == New;
    case NewCandle(_) => ok := false;
  }

  /** The strategy's turn: every request that can be made is carried out. */
  method Trade(c: Controller, cmds: seq<Command>)
    requires c.Linked()
    modifies c`position, c`applied, c.position.Values, c.storage, c.exchange
    ensures c.Linked() && fresh(c.position.Values - old(c.position.Values))
    ensures c.exchange.View() == ObeyAll(old(c.exchange.View()), cmds)
    ensures AllMarket(cmds) && old(c.Immediate()) ==> c.Immediate()
  {
    hide Doable, Step, Controller.Linked, Controller.Immediate;
    ghost var b, market := c.exchange.View(), AllMarket(cmds) && c.Immediate();
    for k := 0 to |cmds|
      invariant c.Linked() && fresh(c.position.Values - old(c.position.Values))
      invariant c.exchange.View() == ObeyAll(b, cmds[..k]) && (market ==> c.Immediate())
    {
      assert cmds[..k + 1][..k] == cmds[..k];
      var ok := Check(c, cmds[k]);
      if ok { Execute(c, cmds[k]); }
    }
    assert cmds[..|cmds|] == cmds;
  }

  // ----- the whole loop -----

  ghost function SetupOf(s: StrategyController): Setup
    reads s
  {
    Setup(s.warmupPeriod, s.highFrequency, s.started)
  }

  ghost function Setups(controllers: map<Pair, StrategyController>): map<Pair, Setup>
    reads controllers.Values
  {
    map p | p in controllers :: SetupOf(controllers[p])
  }

  /** One controller a pair, none shared. */
  predicate Separate(controllers: map<Pair, StrategyController>) {
    forall p, q :: p in controllers && q in controllers && controllers[p] == controllers[q] ==> p == q
  }

  /** Each pair's dataframe holds what its controller makes of the pair's candles so far. */
  ghost predicate CaughtUp(controllers: map<Pair, StrategyController>, stream: seq<Candle>)
    reads controllers.Values
  {
    forall p :: p in controllers ==> CaughtUpOn(controllers[p], Only(stream, p))
  }

  ghost predicate CaughtUpOn(s: StrategyController, feed: seq<Candle>)
    reads s
  {
    s.Valid() && s.rows == ConsumeAll(feed, s.warmupPeriod, s.highFrequency)
  }

  /** Shows the candle to its strategy; reports whether the strategy is called. */
  method Deliver(s: StrategyController, candle: Candle) returns (called: bool)
    requires s.Valid()
    modifies s
    ensures s.Valid() && s.started == old(s.started)
    ensures s.rows == Consume(old(s.rows), candle, s.warmupPeriod, s.highFrequency)
    ensures called == Called(old(s.rows), candle, s.warmupPeriod, s.highFrequency, s.started)
  {
    hide Called;
    called := s.OnPartialCandle(candle);
    if candle.complete { called := s.OnCandle(candle); }
  }

  /** One round of the loop: settle the fills of the candle, then let the strategy react to it. */
  method ProcessCandle(c: Controller, s: StrategyController, candle: Candle, cmds: seq<Command>, ghost called: bool)
    requires c.Linked() && s.Valid()
    requires called == Called(s.rows, candle, s.warmupPeriod, s.highFrequency, s.started)
    modifies s, c`position, c`applied, c.position.Values, c.storage, c.exchange
    ensures c.Linked() && fresh(c.position.Values - old(c.position.Values))
    ensures c.exchange.View() == Turn(old(c.exchange.View()), called, candle, cmds)
    ensures AllMarket(cmds) && old(c.Immediate()) ==> c.Immediate()
    ensures s.Valid() && s.started == old(s.started)
    ensures s.rows == Consume(old(s.rows), candle, s.warmupPeriod, s.highFrequency)
  {
    hide Called, Consume, Tick, ObeyAll, SameStatus, SignedSize, Sum;
    Settle(c, candle);
    var run := Deliver(s, candle);
    if run { Trade(c, cmds); }
  }

  lemma OnlyNext(stream: seq<Candle>, c: Candle, p: Pair)
    ensures Only(stream + [c], p) == if c.pair == p then Only(stream, p) + [c] else Only(stream, p)
  {
    assert (stream + [c])[..|stream|] == stream;
  }

  lemma ConsumeNextOne(feed: seq<Candle>, c: Candle, warmup: nat, highFrequency: bool)
    ensures ConsumeAll(feed + [c], warmup, highFrequency)
         == Consume(ConsumeAll(feed, warmup, highFrequency), c, warmup, highFrequency)
  {
    assert (feed + [c])[..|feed|] == feed;
    hide Consume;
    ConsumeAllNext(feed + [c], warmup, highFrequency);
  }

  lemma NextRows(stream: seq<Candle>, c: Candle, p: Pair, warmup: nat, highFrequency: bool)
    ensures ConsumeAll(Only(stream + [c], p), warmup, highFrequency)
         == var rows := ConsumeAll(Only(stream, p), warmup, highFrequency);
            if c.pair == p then Consume(rows, c, warmup, highFrequency) else rows
  {
    hide Consume, ConsumeAll, Only;
    OnlyNext(stream, c, p);
    ConsumeNextOne(Only(stream, p), c, warmup, highFrequency);
  }

  /** One round keeps the dataframes of all pairs caught up. */
  method NextRound(c: Controller, controllers: map<Pair, StrategyController>, candle: Candle, cmds: seq<Command>,
                   ghost stream: seq<Candle>)
    requires c.Linked() && candle.pair in controllers && Separate(controllers) && CaughtUp(controllers, stream)
    modifies controllers.Values, c`position, c`applied, c.position.Values, c.storage, c.exchange
    ensures c.Linked() && fresh(c.position.Values - old(c.position.Values))
    ensures CaughtUp(controllers, stream + [candle]) && Setups(controllers) == old(Setups(controllers))
    ensures c.exchange.View()
         == Turn(old(c.exchange.View()), Calls(stream, candle, old(Setups(controllers))), candle, cmds)
    ensures AllMarket(cmds) && old(c.Immediate()) ==> c.Immediate()
  {
    hide Turn, Calls, Called, Consume, ConsumeAll, Only, Controller.Linked, StrategyController.Valid;
    CallsAgree(controllers, stream, candle);
    ProcessCandle(c, controllers[candle.pair], candle, cmds, Calls(stream, candle, Setups(controllers)));
    forall p | p in controllers
      ensures CaughtUpOn(controllers[p], Only(stream + [candle], p))
    {
      NextRows(stream, candle, p, controllers[p].warmupPeriod, controllers[p].highFrequency);
    }
  }

  /** The backtest so far: the exchange has the replayed books, the positions follow it, and every dataframe
      is caught up. */
  ghost predicate Replayed(c: Controller, controllers: map<Pair, StrategyController>, stream: seq<Candle>,
                           b: Book, setups: map<Pair, Setup>, script: nat -> seq<Command>)
    reads c, c.position.Values, c.storage, c.exchange, controllers.Values
  {
    && c.Linked() && Separate(controllers) && CaughtUp(controllers, stream) && Setups(controllers) == setups
    && c.exchange.View() == Replay(b, stream, setups, script)
  }

  /** The next round of a backtest. */
  method BacktestRound(c: Controller, controllers: map<Pair, StrategyController>, candle: Candle, n: nat,
                       script: nat -> seq<Command>, ghost stream: seq<Candle>, ghost b: Book,
                       ghost setups: map<Pair, Setup>)
    requires Replayed(c, controllers, stream, b, setups, script) && candle.pair in controllers && n == |stream|
    modifies controllers.Values, c`position, c`applied, c.position.Values, c.storage, c.exchange
    ensures Replayed(c, controllers, stream + [candle], b, setups, script)
    ensures fresh(c.position.Values - old(c.position.Values))
    ensures AllMarket(script(n)) && old(c.Immediate()) ==> c.Immediate()
  {
    hide Replay, Turn, Calls, CaughtUp, Controller.Linked, Controller.Immediate, AllMarket;
    NextRound(c, controllers, candle, script(n), stream);
    ReplayNext(b, stream, candle, setups, script);
  }

  predicate OfPairs(data: seq<Candle>, pairs: set<Pair>) { forall i :: 0 <= i < |data| ==> data[i].pair in pairs }

  /** What has been popped is in order and before what is left, and nothing is lost. */
  ghost predicate Popped(queue: PriorityQueue<Candle>, stream: seq<Candle>, all: multiset<Candle>, pairs: set<Pair>)
    reads queue
  {
    && queue.Valid() && OfPairs(queue.data, pairs) && multiset(stream) + multiset(queue.data) == all
    && InOrder(stream, queue.less) && NoneBefore(queue.data, stream, queue.less)
  }

  /** Takes the next candle in chronological order from the queue. */
  method NextCandle(queue: PriorityQueue<Candle>, ghost stream: seq<Candle>, ghost all: multiset<Candle>,
                    ghost pairs: set<Pair>)
    returns (candle: Candle)
    requires Popped(queue, stream, all, pairs) && queue.data != []
    modifies queue
    ensures Popped(queue, stream + [candle], all, pairs)
    ensures candle.pair in pairs && |queue.data| == old(|queue.data|) - 1
  {
    hide InOrder, NoneBefore, StrictWeak, Heap;
    ghost var before := queue.data;
    var item := queue.Pop();
    candle := item.value;
    NextInOrder(stream, before, queue.data, candle, queue.less);
    assert candle in multiset(before);
    forall i | 0 <= i < |queue.data| ensures queue.data[i].pair in pairs {
      assert queue.data[i] in multiset(queue.data) + multiset{candle};
      assert queue.data[i] in multiset(before);
    }
  }

  /** A whole backtest, for any candles, strategies and requests. The candles are processed in
      chronological order, each once. The exchange ends up with the replayed books, the positions with
      the net of its fills, and each pair's strategy with the dataframe of its own candles. */
  method BacktestCandles(queue: PriorityQueue<Candle>, c: Controller, controllers: map<Pair, StrategyController>,
                         script: nat -> seq<Command>)
    returns (ghost stream: seq<Candle>)
    requires queue.Valid() && c.Linked() && Separate(controllers) && CaughtUp(controllers, [])
    requires OfPairs(queue.data, controllers.Keys)
    modifies queue, controllers.Values, c`position, c`applied, c.position.Values, c.storage, c.exchange
    ensures queue.Valid() && queue.data == []
    ensures multiset(stream) == multiset(old(queue.data)) && InOrder(stream, queue.less)
    ensures c.Linked() && CaughtUp(controllers, stream)
    ensures c.exchange.View() == Replay(old(c.exchange.View()), stream, old(Setups(controllers)), script)
    ensures forall p :: SignedSize(c.Positions(), p) == Sum(Signed(p), c.exchange.orders)
    ensures (forall k :: AllMarket(script(k))) && old(c.Immediate()) ==> c.Immediate()
  {
    hide Replay, CaughtUp, StrictWeak, InOrder, NoneBefore, OfPairs, AllMarket, SignedSize, Sum;
    hide Controller.Linked, Controller.Immediate;
    stream := [];
    var n := 0;
    ghost var b, setups, all := c.exchange.View(), Setups(controllers), multiset(queue.data);
    ghost var market := (forall k :: AllMarket(script(k))) && c.Immediate();
    NothingReplayed(b, setups, script);
    NothingPopped(queue.data, queue.less);
    var left := queue.Len();
    assert Popped(queue, stream, all, controllers.Keys) && Replayed(c, controllers, stream, b, setups, script);
    hide Popped, Replayed, PriorityQueue.Valid;
    while left > 0
      invariant n == |stream| && left == |queue.data| && fresh(c.position.Values - old(c.position.Values))
      invariant Popped(queue, stream, all, controllers.Keys)
      invariant Replayed(c, controllers, stream, b, setups, script) && (market ==> c.Immediate())
      decreases left
    {
      var candle := NextCandle(queue, stream, all, controllers.Keys);
      BacktestRound(c, controllers, candle, n, script, stream, b, setups);
      stream := stream + [candle];
      n := n + 1;
      left := left - 1;
    }
    EndOfBacktest(queue, c, controllers, stream, all, b, setups, script);
  }

  lemma EndOfBacktest(queue: PriorityQueue<Candle>, c: Controller, controllers: map<Pair, StrategyController>,
                      stream: seq<Candle>, all: multiset<Candle>, b: Book, setups: map<Pair, Setup>,
                      script: nat -> seq<Command>)
    requires Popped(queue, stream, all, controllers.Keys) && queue.data == []
    requires Replayed(c, controllers, stream, b, setups, script)
    ensures queue.Valid() && multiset(stream) == all && InOrder(stream, queue.less)
    ensures c.Linked() && CaughtUp(controllers, stream) && c.exchange.View() == Replay(b, stream, setups, script)
    ensures forall p :: SignedSize(c.Positions(), p) == Sum(Signed(p), c.exchange.orders)
  {
    hide Controller.Linked, CaughtUp, Replay, SignedSize, Sum;
    AllPositionsAreNet(c);
  }

  lemma AllPositionsAreNet(c: Controller)
    requires c.Linked()
    ensures forall p :: SignedSize(c.Positions(), p) == Sum(Signed(p), c.exchange.orders)
  {
    forall p ensures SignedSize(c.Positions(), p) == Sum(Signed(p), c.exchange.orders) {
      PositionsAreNetOfExchange(c, p);
    }
  }

  lemma NothingPopped(data: seq<Candle>, less: (Candle, Candle) -> bool)
    ensures InOrder([], less) && NoneBefore(data, [], less)
  {
  }

  lemma CallsAgree(controllers: map<Pair, StrategyController>, stream: seq<Candle>, c: Candle)
    requires c.pair in controllers && CaughtUp(controllers, stream)
    ensures var s := controllers[c.pair];
      s.Valid() && (Calls(stream, c, Setups(controllers)) <==>
                    Called(s.rows, c, s.warmupPeriod, s.highFrequency, s.started))
  {
    hide Called, ConsumeAll, Only;
  }
}
