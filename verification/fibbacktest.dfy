/** A backtest of the Fibonacci strategy, with the simulated exchange as its broker: the strategy is long-only, so
    its books balance, and it buys no leg twice. */
module FibonacciBacktests {
  import opened Types
  import opened Ledger
  import opened WalletSpec
  import opened LongOnly
  import opened Feed
  import opened Dataframes
  import opened Pipeline
  import opened Backtests
  import opened Fibonacci
  import opened Delivery

  /** The strategy's parameters, its two indicators and the rounding of order sizes. */
  datatype Config = Config(pivot: nat, level: real, warmup: nat,
                           ema: seq<Candle> -> seq<real>, atr: seq<Candle> -> seq<real>,
                           lot: (Pair, real, real) -> real)

  /** The books and the memory of traded legs. */
  datatype Desk = Desk(book: Book, traded: map<Pair, int>)

  /** The wallet's answers: all of both coins, and the size of the buy if it is accepted. */
  function BrokerOf(b: Book, pair: Pair, cfg: Config): Broker {
    var coin, money := Free(b, pair.asset) + Lock(b, pair.asset), Free(b, pair.quote) + Lock(b, pair.quote);
    var size := cfg.lot(pair, money, Close(b, pair));
    Broker(Some((coin, money)),
           if size > 0.0 && Accepts(b, Buy, pair, size, Close(b, pair)) then Some(size) else None)
  }

  /** A buy and the group that sells what was bought, with its stop at its limit. */
  function Requests(pair: Pair, a: Action): seq<Command> {
    if a.Bought? then [MarketOrder(Buy, pair, a.size), OcoOrder(pair, a.size, a.take, a.stop, a.stop)] else []
  }

  /** The dataframe that candle c completes. */
  function FrameAt(before: seq<Candle>, c: Candle, cfg: Config): Frame {
    var rows := ConsumeAll(Only(before + [c], c.pair), cfg.warmup, false);
    FrameOf(c.pair, rows, cfg.ema(rows), cfg.atr(rows))
  }

  function ActionOn(d: Desk, before: seq<Candle>, c: Candle, cfg: Config): Action {
    var f := FrameAt(before, c, cfg);
    if Fibonacci.Regular(f) then Act(f, d.traded, BrokerOf(Tick(d.book, c), c.pair, cfg), cfg.pivot, cfg.level)
    else Hold
  }

  /** The desk after a stream of candles. */
  function DeskAfter(d: Desk, stream: seq<Candle>, setups: map<Pair, Setup>, cfg: Config): Desk {
    if stream == [] then d
    else
      var init, c := stream[..|stream|-1], stream[|stream|-1];
      var before := DeskAfter(d, init, setups, cfg);
      if !Calls(init, c, setups) then before.(book := Tick(before.book, c))
      else
        var a := ActionOn(before, init, c, cfg);
        Desk(ObeyAll(Tick(before.book, c), Requests(c.pair, a)), Remember(FrameAt(init, c, cfg), before.traded, a))
  }

  /** What the strategy asks for after candle n. */
  function ScriptOf(d: Desk, stream: seq<Candle>, setups: map<Pair, Setup>, cfg: Config): nat -> seq<Command> {
    (n: nat) =>
      if n < |stream|
      then Requests(stream[n].pair, ActionOn(DeskAfter(d, stream[..n], setups, cfg), stream[..n], stream[n], cfg))
      else []
  }

  lemma DeskNext(d: Desk, stream: seq<Candle>, k: nat, setups: map<Pair, Setup>, cfg: Config)
    requires k < |stream|
    ensures var before, c := DeskAfter(d, stream[..k], setups, cfg), stream[k];
      DeskAfter(d, stream[..k + 1], setups, cfg) ==
      if !Calls(stream[..k], c, setups) then before.(book := Tick(before.book, c))
      else
        var a := ActionOn(before, stream[..k], c, cfg);
        Desk(ObeyAll(Tick(before.book, c), Requests(c.pair, a)),
             Remember(FrameAt(stream[..k], c, cfg), before.traded, a))
  {
    assert stream[..k + 1][..k] == stream[..k];
    hide Calls, ActionOn, ObeyAll, Tick, Remember, FrameAt;
  }

  /** The desk's books are the replayed ones. */
  lemma {:induction false} DeskIsReplay(d: Desk, stream: seq<Candle>, k: nat, setups: map<Pair, Setup>, cfg: Config)
    requires k <= |stream|
    ensures Replay(d.book, stream[..k], setups, ScriptOf(d, stream, setups, cfg))
         == DeskAfter(d, stream[..k], setups, cfg).book
  {
    hide Calls, ActionOn, ObeyAll, Tick, Remember, FrameAt, Turn, Replay, DeskAfter;
    if k == 0 {
      assert stream[..0] == [];
      NothingReplayed(d.book, setups, ScriptOf(d, stream, setups, cfg));
      NothingHappened(d, setups, cfg);
    } else {
      DeskIsReplay(d, stream, k - 1, setups, cfg);
      DeskNext(d, stream, k - 1, setups, cfg);
      assert stream[..k] == stream[..k - 1] + [stream[k - 1]];
      ReplayNext(d.book, stream[..k - 1], stream[k - 1], setups, ScriptOf(d, stream, setups, cfg));
      TurnIs(DeskAfter(d, stream[..k - 1], setups, cfg).book, stream[k - 1]);
    }
  }

  lemma NothingHappened(d: Desk, setups: map<Pair, Setup>, cfg: Config)
    ensures DeskAfter(d, [], setups, cfg) == d
  {
  }

  lemma TurnIs(b: Book, c: Candle)
    ensures forall cmds :: Turn(b, true, c, cmds) == ObeyAll(Tick(b, c), cmds) && Turn(b, false, c, cmds) == Tick(b, c)
  {
  }

  // ----- long-only -----

  lemma {:induction false} ScanKeepsCandles(b: Book, c: Candle, n: nat)
    requires n <= |b.orders|
    ensures Scan(b, c, n).last == b.last
  {
    hide Match;
    if n > 0 {
      ScanKeepsCandles(b, c, n - 1);
      MatchKeepsCandles(Scan(b, c, n - 1), n - 1, c);
    }
  }

  lemma MatchKeepsCandles(b: Book, i: nat, c: Candle)
    requires i < |b.orders|
    ensures Match(b, i, c).last == b.last
  {
    hide Sibling, Worth, Blend, Trigger;
  }

  lemma TickCloses(b: Book, c: Candle)
    ensures Close(Tick(b, c), c.pair) == c.close
  {
    ScanKeepsCandles(b.(last := b.last[c.pair := c]), c, |b.orders|);
  }

  /** A bought leg's bracket has positive prices when all lows are positive. */
  lemma BracketIsPositive(f: Frame, traded: map<Pair, int>, b: Broker, pivot: nat, level: real)
    requires Fibonacci.Regular(f) && Act(f, traded, b, pivot, level).Bought?
    requires forall i :: 0 <= i < |f.low| ==> f.low[i] > 0.0
    ensures var a := Act(f, traded, b, pivot, level); a.stop > 0.0 && a.take > 0.0
  {
    BracketStraddlesEntry(f, traded, b, pivot, level);
    LegsAreSound(f.high, f.low, pivot, |f.time| - 1);
    hide After, FibLevel, IsPivotLow, SoundHigh, SoundPivot;
  }

  lemma BoughtAsAnswered(f: Frame, traded: map<Pair, int>, b: Broker, pivot: nat, level: real)
    requires Fibonacci.Regular(f) && Act(f, traded, b, pivot, level).Bought?
    ensures b.bought == Some(Act(f, traded, b, pivot, level).size)
  {
    hide Candidate, Signals, Affords;
  }

  /** The buy and the group that sells what it bought are what a long-only caller asks for. */
  lemma BuyAndBracketAreLongOnly(b: Book, pair: Pair, size: real, take: real, stop: real)
    requires pair.asset != pair.quote && size > 0.0 && take > 0.0 && stop > 0.0 && Close(b, pair) > 0.0
    requires Free(b, pair.asset) >= 0.0 && Accepts(b, Buy, pair, size, Close(b, pair))
    ensures LongOnlyRequests(b, [MarketOrder(Buy, pair, size), OcoOrder(pair, size, take, stop, stop)])
  {
    var buy, oco := MarketOrder(Buy, pair, size), OcoOrder(pair, size, take, stop, stop);
    FundingIsExact(b, Buy, pair, size, Close(b, pair), true, pair.asset);
    hide Fund, Accepts, Touch;
    assert [buy, oco][..1] == [buy] && [buy][..0] == [];
    assert ObeyAll(b, [buy]) == Step(b, buy);
    assert Free(Step(b, buy), pair.asset) >= size;
    assert LongOnlyRequests(b, [buy]);
  }

  lemma RequestsAreLongOnly(d: Desk, initial: map<string, real>, before: seq<Candle>, c: Candle, cfg: Config)
    requires Sound(Tick(d.book, c), initial) && c.pair.asset != c.pair.quote && c.close > 0.0
    requires var f := FrameAt(before, c, cfg); forall i :: 0 <= i < |f.low| ==> f.low[i] > 0.0
    ensures LongOnlyRequests(Tick(d.book, c), Requests(c.pair, ActionOn(d, before, c, cfg)))
  {
    var b, f, a := Tick(d.book, c), FrameAt(before, c, cfg), ActionOn(d, before, c, cfg);
    TickCloses(d.book, c);
    assert Balanced(b, initial, c.pair.asset);
    hide Tick, Act, Sound, FrameAt, Accepts;
    if a.Bought? {
      var broker := BrokerOf(b, c.pair, cfg);
      BracketIsPositive(f, d.traded, broker, cfg.pivot, cfg.level);
      BoughtAsAnswered(f, d.traded, broker, cfg.pivot, cfg.level);
      BuyAndBracketAreLongOnly(b, c.pair, a.size, a.take, a.stop);
    }
  }

  /** Candles with positive prices, of pairs of two coins. */
  predicate Priced(stream: seq<Candle>) {
    forall k :: 0 <= k < |stream| ==>
      stream[k].pair.asset != stream[k].pair.quote && stream[k].close > 0.0 && stream[k].low > 0.0
  }

  lemma {:induction false} OnlyIn(s: seq<Candle>, p: Pair)
    ensures forall x :: x in Only(s, p) ==> x in s
  {
    if s != [] { OnlyIn(s[..|s|-1], p); }
  }

  lemma {:induction false} RowsIn(feed: seq<Candle>, warmup: nat)
    ensures forall x :: x in ConsumeAll(feed, warmup, false) ==> x in feed
  {
    if feed != [] {
      var init, c := feed[..|feed|-1], feed[|feed|-1];
      RowsIn(init, warmup);
      ConsumeIn(ConsumeAll(init, warmup, false), c, warmup);
      ConsumeAllNext(feed, warmup, false);
      hide Consume;
      forall x | x in ConsumeAll(feed, warmup, false) ensures x in feed {
        if x != c {
          var j :| 0 <= j < |init| && init[j] == x;
          assert feed[j] == x;
        }
      }
    }
  }

  lemma ConsumeIn(rows: seq<Candle>, c: Candle, warmup: nat)
    ensures forall x :: x in Consume(rows, c, warmup, false) ==> x == c || x in rows
  {
  }

  lemma LowsArePositive(stream: seq<Candle>, k: nat, cfg: Config)
    requires Priced(stream) && k < |stream|
    ensures var f := FrameAt(stream[..k], stream[k], cfg); forall i :: 0 <= i < |f.low| ==> f.low[i] > 0.0
  {
    assert stream[..k] + [stream[k]] == stream[..k + 1];
    hide ConsumeAll, Only;
    var feed := Only(stream[..k + 1], stream[k].pair);
    OnlyIn(stream[..k + 1], stream[k].pair);
    RowsIn(feed, cfg.warmup);
    var rows := ConsumeAll(feed, cfg.warmup, false);
    forall i | 0 <= i < |rows| ensures rows[i].low > 0.0 {
      var x := rows[i];
      assert x in rows;
      var l :| 0 <= l < |stream[..k + 1]| && stream[..k + 1][l] == x;
      assert stream[l] == x;
    }
  }

  lemma LongOnlyNext(b: Book, stream: seq<Candle>, k: nat, setups: map<Pair, Setup>, script: nat -> seq<Command>)
    requires k < |stream| && LongOnlyStrategy(b, stream[..k], setups, script)
    requires Calls(stream[..k], stream[k], setups) ==>
      LongOnlyRequests(Tick(Replay(b, stream[..k], setups, script), stream[k]), script(k))
    ensures LongOnlyStrategy(b, stream[..k + 1], setups, script)
  {
    assert stream[..k + 1][..k] == stream[..k];
    hide LongOnlyRequests, Calls, Tick;
  }

  /** Whatever the candles, the indicators and the rounding of sizes, the strategy stays long-only. */
  lemma {:induction false} FibonacciIsLongOnly(
    d: Desk, initial: map<string, real>, stream: seq<Candle>, k: nat, setups: map<Pair, Setup>, cfg: Config)
    requires Sound(d.book, initial) && Priced(stream) && k <= |stream|
    ensures LongOnlyStrategy(d.book, stream[..k], setups, ScriptOf(d, stream, setups, cfg))
  {
    hide Sound, Calls, LongOnlyRequests, ActionOn, FrameAt, DeskAfter, Replay, Tick;
    if k > 0 {
      var script, n := ScriptOf(d, stream, setups, cfg), k - 1;
      FibonacciIsLongOnly(d, initial, stream, n, setups, cfg);
      BacktestKeepsSound(d.book, initial, stream[..n], setups, script);
      DeskIsReplay(d, stream, n, setups, cfg);
      TickKeepsSound(DeskAfter(d, stream[..n], setups, cfg).book, initial, stream[n]);
      LowsArePositive(stream, n, cfg);
      RequestsAreLongOnly(DeskAfter(d, stream[..n], setups, cfg), initial, stream[..n], stream[n], cfg);
      LongOnlyNext(d.book, stream, n, setups, script);
    }
  }

  // ----- one trade per leg -----

  /** The deliveries of a backtest, and where each lies in the feed of its pair. */
  function EventsOf(d: Desk, stream: seq<Candle>, setups: map<Pair, Setup>, cfg: Config): seq<Event> {
    if stream == [] then []
    else
      var init, c := stream[..|stream|-1], stream[|stream|-1];
      var events := EventsOf(d, init, setups, cfg);
      if !Calls(init, c, setups) then events
      else events + [Event(FrameAt(init, c, cfg),
                           BrokerOf(Tick(DeskAfter(d, init, setups, cfg).book, c), c.pair, cfg))]
  }

  function Places(stream: seq<Candle>, setups: map<Pair, Setup>): seq<nat> {
    if stream == [] then []
    else
      var init, c := stream[..|stream|-1], stream[|stream|-1];
      if !Calls(init, c, setups) then Places(init, setups) else Places(init, setups) + [|Only(init, c.pair)|]
  }

  /** A strategy that is not high-frequency and is started, on feeds as resampling makes them. */
  ghost predicate Fitting(stream: seq<Candle>, setups: map<Pair, Setup>, cfg: Config) {
    && (forall p :: p in setups ==> setups[p] == Setup(cfg.warmup, false, true))
    && (forall p :: p in setups ==> Phased(Only(stream, p)))
    && (forall rows :: |cfg.ema(rows)| == |rows| && |cfg.atr(rows)| == |rows|)
  }

  lemma {:induction false} OnlyGrows(stream: seq<Candle>, k: nat, n: nat, p: Pair)
    requires k <= n <= |stream|
    ensures Only(stream[..k], p) <= Only(stream[..n], p)
  {
    if k < n {
      OnlyGrows(stream, k, n - 1, p);
      assert stream[..n][..n - 1] == stream[..n - 1];
    }
  }

  lemma OnlyNextCandle(stream: seq<Candle>, k: nat, p: Pair)
    requires k < |stream|
    ensures Only(stream[..k + 1], p)
         == if stream[k].pair == p then Only(stream[..k], p) + [stream[k]] else Only(stream[..k], p)
  {
    assert stream[..k + 1][..k] == stream[..k];
  }

  lemma OnlyUpTo(stream: seq<Candle>, k: nat)
    requires k < |stream|
    ensures var p := stream[k].pair;
      var feed, n := Only(stream, p), |Only(stream[..k], p)|;
      n < |feed| && feed[n] == stream[k] && feed[..n + 1] == Only(stream[..k + 1], p)
  {
    var p := stream[k].pair;
    OnlyNextCandle(stream, k, p);
    OnlyGrows(stream, k + 1, |stream|, p);
    assert stream[..|stream|] == stream;
  }

  ghost predicate DeliveredSoFar(d: Desk, stream: seq<Candle>, k: nat, setups: map<Pair, Setup>, cfg: Config,
                                 feeds: map<Pair, seq<Candle>>)
    requires k <= |stream|
  {
    var events, at := EventsOf(d, stream[..k], setups, cfg), Places(stream[..k], setups);
    && Delivered(events, feeds, at, cfg.warmup)
    && forall n :: 0 <= n < |events| ==> at[n] < |Only(stream[..k], events[n].frame.pair)|
  }

  lemma EventNext(d: Desk, stream: seq<Candle>, k: nat, setups: map<Pair, Setup>, cfg: Config)
    requires k < |stream|
    ensures var events, at := EventsOf(d, stream[..k], setups, cfg), Places(stream[..k], setups);
      var e := Event(FrameAt(stream[..k], stream[k], cfg),
                     BrokerOf(Tick(DeskAfter(d, stream[..k], setups, cfg).book, stream[k]), stream[k].pair, cfg));
      if Calls(stream[..k], stream[k], setups)
      then EventsOf(d, stream[..k + 1], setups, cfg) == events + [e]
           && Places(stream[..k + 1], setups) == at + [|Only(stream[..k], stream[k].pair)|]
      else EventsOf(d, stream[..k + 1], setups, cfg) == events && Places(stream[..k + 1], setups) == at
  {
    assert stream[..k + 1][..k] == stream[..k];
    hide Calls, FrameAt, BrokerOf, DeskAfter, Tick;
  }

  /** What is delivered on candle k. */
  lemma CandleIsDelivered(stream: seq<Candle>, k: nat, setups: map<Pair, Setup>, cfg: Config,
                          feeds: map<Pair, seq<Candle>>)
    requires k < |stream| && Fitting(stream, setups, cfg) && Calls(stream[..k], stream[k], setups)
    requires feeds == map p | p in setups :: Only(stream, p)
    ensures DeliveredAt(FrameAt(stream[..k], stream[k], cfg), feeds, |Only(stream[..k], stream[k].pair)|, cfg.warmup)
  {
    hide ConsumeAll, Only, Phased;
    OnlyUpTo(stream, k);
    assert stream[..k] + [stream[k]] == stream[..k + 1];
  }

  lemma DeliveredNext(events: seq<Event>, feeds: map<Pair, seq<Candle>>, at: seq<nat>, warmup: nat, e: Event, n: nat)
    requires Delivered(events, feeds, at, warmup) && DeliveredAt(e.frame, feeds, n, warmup)
    requires forall m :: 0 <= m < |events| && events[m].frame.pair == e.frame.pair ==> at[m] < n
    ensures Delivered(events + [e], feeds, at + [n], warmup)
  {
    hide Phased, DeliveredAt;
  }

  lemma {:induction false} EventsAreDelivered(
    d: Desk, stream: seq<Candle>, k: nat, setups: map<Pair, Setup>, cfg: Config, feeds: map<Pair, seq<Candle>>)
    requires k <= |stream| && Fitting(stream, setups, cfg) && feeds == map p | p in setups :: Only(stream, p)
    ensures DeliveredSoFar(d, stream, k, setups, cfg, feeds)
  {
    hide Calls, FrameAt, BrokerOf, DeskAfter, Tick, DeliveredAt, Only, Phased;
    if k > 0 {
      var n := k - 1;
      EventsAreDelivered(d, stream, n, setups, cfg, feeds);
      EventNext(d, stream, n, setups, cfg);
      var events, at := EventsOf(d, stream[..n], setups, cfg), Places(stream[..n], setups);
      forall m | 0 <= m < |events| ensures at[m] < |Only(stream[..k], events[m].frame.pair)| {
        OnlyGrows(stream, n, k, events[m].frame.pair);
      }
      if Calls(stream[..n], stream[n], setups) {
        var f, p := FrameAt(stream[..n], stream[n], cfg), stream[n].pair;
        FramePair(stream[..n], stream[n], cfg);
        CandleIsDelivered(stream, n, setups, cfg, feeds);
        OnlyNextCandle(stream, n, p);
        var e := Event(f, BrokerOf(Tick(DeskAfter(d, stream[..n], setups, cfg).book, stream[n]), p, cfg));
        DeliveredNext(events, feeds, at, cfg.warmup, e, |Only(stream[..n], p)|);
      }
    }
  }

  lemma FramePair(before: seq<Candle>, c: Candle, cfg: Config)
    ensures FrameAt(before, c, cfg).pair == c.pair
  {
  }

  lemma PrefixDelivered(d: Desk, stream: seq<Candle>, k: nat, setups: map<Pair, Setup>, cfg: Config)
    requires k <= |stream| && Fitting(stream, setups, cfg)
    ensures Growing(EventsOf(d, stream[..k], setups, cfg))
  {
    hide Fitting, Delivered, Growing;
    var feeds := map p | p in setups :: Only(stream, p);
    EventsAreDelivered(d, stream, k, setups, cfg, feeds);
    DeliveredFramesGrow(EventsOf(d, stream[..k], setups, cfg), feeds, Places(stream[..k], setups), cfg.warmup);
  }

  lemma {:induction false} MemoryOfPart(a: seq<Event>, b: seq<Event>, pivot: nat, level: real, n: nat)
    requires a <= b && n <= |a| && forall k :: 0 <= k < |b| ==> Fibonacci.Regular(b[k].frame)
    ensures forall k :: 0 <= k < |a| ==> Fibonacci.Regular(a[k].frame)
    ensures Memory(a, pivot, level, n) == Memory(b, pivot, level, n)
  {
    hide Act, Remember, Fibonacci.Regular;
    assert forall k :: 0 <= k < |a| ==> a[k] == b[k];
    if n > 0 { MemoryOfPart(a, b, pivot, level, n - 1); }
  }

  /** The memory of the desk is that of the deliveries. */
  lemma {:induction false} MemoryIsDesk(d: Desk, stream: seq<Candle>, k: nat, setups: map<Pair, Setup>, cfg: Config)
    requires k <= |stream| && Fitting(stream, setups, cfg) && d.traded == map[]
    ensures var events := EventsOf(d, stream[..k], setups, cfg);
      && (forall n :: 0 <= n < |events| ==> Fibonacci.Regular(events[n].frame))
      && Memory(events, cfg.pivot, cfg.level, |events|) == DeskAfter(d, stream[..k], setups, cfg).traded
  {
    hide Calls, FrameAt, BrokerOf, Tick, Act, Remember, ObeyAll, Fibonacci.Regular, Fitting, Prefix;
    PrefixDelivered(d, stream, k, setups, cfg);
    if k > 0 {
      var n := k - 1;
      MemoryIsDesk(d, stream, n, setups, cfg);
      EventNext(d, stream, n, setups, cfg);
      DeskNext(d, stream, n, setups, cfg);
      if Calls(stream[..n], stream[n], setups) {
        var events, all := EventsOf(d, stream[..n], setups, cfg), EventsOf(d, stream[..k], setups, cfg);
        MemoryOfPart(events, all, cfg.pivot, cfg.level, |events|);
        assert Fibonacci.Regular(all[|events|].frame);
        FramePair(stream[..n], stream[n], cfg);
      }
    }
  }

  /** What the strategy does on candle k. */
  function ActionOf(d: Desk, stream: seq<Candle>, k: nat, setups: map<Pair, Setup>, cfg: Config): Action
    requires k < |stream|
  {
    if Calls(stream[..k], stream[k], setups)
    then ActionOn(DeskAfter(d, stream[..k], setups, cfg), stream[..k], stream[k], cfg) else Hold
  }

  lemma {:induction false} EventsGrow(
    d: Desk, stream: seq<Candle>, k: nat, n: nat, setups: map<Pair, Setup>, cfg: Config)
    requires k <= n <= |stream|
    ensures EventsOf(d, stream[..k], setups, cfg) <= EventsOf(d, stream[..n], setups, cfg)
  {
    hide Calls, FrameAt, BrokerOf, DeskAfter, Tick;
    if k < n {
      EventsGrow(d, stream, k, n - 1, setups, cfg);
      EventNext(d, stream, n - 1, setups, cfg);
    }
  }

  /** The action on a candle is that of its delivery. */
  lemma ActionIsOfEvent(d: Desk, stream: seq<Candle>, k: nat, setups: map<Pair, Setup>, cfg: Config)
    requires k < |stream| && Fitting(stream, setups, cfg) && d.traded == map[]
    requires Calls(stream[..k], stream[k], setups)
    ensures var events, n := EventsOf(d, stream, setups, cfg), |EventsOf(d, stream[..k], setups, cfg)|;
      && n < |events| && events[n].frame.pair == stream[k].pair
      && (forall i :: 0 <= i < |events| ==> Fibonacci.Regular(events[i].frame))
      && ActionAt(events, cfg.pivot, cfg.level, n) == ActionOf(d, stream, k, setups, cfg)
  {
    hide Calls, FrameAt, BrokerOf, Tick, Act, ObeyAll, Fibonacci.Regular, Fitting, DeskAfter, Memory, EventsOf;
    var before, events := EventsOf(d, stream[..k], setups, cfg), EventsOf(d, stream, setups, cfg);
    assert stream[..|stream|] == stream;
    MemoryIsDesk(d, stream, |stream|, setups, cfg);
    MemoryIsDesk(d, stream, k, setups, cfg);
    EventNext(d, stream, k, setups, cfg);
    EventsGrow(d, stream, k, k + 1, setups, cfg);
    EventsGrow(d, stream, k + 1, |stream|, setups, cfg);
    MemoryOfPart(before, events, cfg.pivot, cfg.level, |before|);
    FramePair(stream[..k], stream[k], cfg);
    assert events[|before|] == EventsOf(d, stream[..k + 1], setups, cfg)[|before|];
    assert Fibonacci.Regular(events[|before|].frame);
  }

  lemma DeliveriesAdvance(d: Desk, stream: seq<Candle>, j: nat, k: nat, setups: map<Pair, Setup>, cfg: Config)
    requires j < k < |stream| && Calls(stream[..j], stream[j], setups)
    ensures |EventsOf(d, stream[..j], setups, cfg)| < |EventsOf(d, stream[..k], setups, cfg)|
  {
    hide Calls, FrameAt, BrokerOf, DeskAfter, Tick;
    EventNext(d, stream, j, setups, cfg);
    EventsGrow(d, stream, j + 1, k, setups, cfg);
  }

  /** In a backtest with the simulated exchange as broker no leg of a pair is bought twice. */
  lemma BacktestBuysNoLegTwice(d: Desk, stream: seq<Candle>, j: nat, k: nat, setups: map<Pair, Setup>, cfg: Config)
    requires j < k < |stream| && stream[j].pair == stream[k].pair && Fitting(stream, setups, cfg) && d.traded == map[]
    requires ActionOf(d, stream, j, setups, cfg).Bought? && ActionOf(d, stream, k, setups, cfg).Bought?
    ensures ActionOf(d, stream, j, setups, cfg).leg.lowIdx < ActionOf(d, stream, k, setups, cfg).leg.lowIdx
  {
    hide Fitting, EventsOf, DeskAfter, ActionOn, ActionAt, Calls, Growing;
    ActionIsOfEvent(d, stream, j, setups, cfg);
    ActionIsOfEvent(d, stream, k, setups, cfg);
    DeliveriesAdvance(d, stream, j, k, setups, cfg);
    PrefixDelivered(d, stream, |stream|, setups, cfg);
    assert stream[..|stream|] == stream;
    var m, n := |EventsOf(d, stream[..j], setups, cfg)|, |EventsOf(d, stream[..k], setups, cfg)|;
    OneTradePerLeg(EventsOf(d, stream, setups, cfg), cfg.pivot, cfg.level, m, n);
  }

  /** The books of such a backtest, from any opening wallet: they are those of the replay, no coin is overdrawn, its
      lock is what pending orders need, and its holding is what the fills have moved. */
  lemma FibonacciBacktestBalances(
    initial: map<string, real>, stream: seq<Candle>, setups: map<Pair, Setup>, cfg: Config, coin: string)
    requires Priced(stream) && forall a :: a in initial ==> initial[a] >= 0.0
    ensures var d := Desk(Opening(initial), map[]);
      var b := DeskAfter(d, stream, setups, cfg).book;
      && b == Replay(Opening(initial), stream, setups, ScriptOf(d, stream, setups, cfg))
      && Free(b, coin) >= 0.0
      && Lock(b, coin) == Sum(LockedAsset(coin), b.orders) + Sum(LockedQuote(coin), b.orders) >= 0.0
      && Free(b, coin) + Lock(b, coin)
         == Lookup(initial, coin) + Sum(Flow(coin), b.orders) + Sum(Slip(coin), b.orders)
  {
    hide Opening, Sound, LongOnlyStrategy, Replay, DeskAfter, ScriptOf, Priced;
    var d := Desk(Opening(initial), map[]);
    assert stream[..|stream|] == stream;
    OpeningIsSound(initial);
    FibonacciIsLongOnly(d, initial, stream, |stream|, setups, cfg);
    DeskIsReplay(d, stream, |stream|, setups, cfg);
    BacktestBalances(initial, stream, setups, ScriptOf(d, stream, setups, cfg), coin);
  }
}
