/** What the recorded equity is worth: what the wallet owns of every coin, free or locked, at the coin's close. */
module Valuation {
  import opened Types
  import opened Ledger
  import opened WalletSpec
  import opened Equity
  import opened WalletShape
  import opened LongOnly
  import opened Funding
  import opened Backtests

  // ----- orders that are not executed -----

  lemma UnownedIsWorthless(b: Book, base: string, a: string)
    requires Owned(b, a) == 0.0
    ensures Line(b, base, a) == 0.0
  {
    Funding.WorthOfNone(Close(b, Pair(a, base)));
    hide Worth;
  }

  /** Coins of which nothing is owned add nothing. */
  lemma {:induction false} TotalOfMore(b: Book, base: string, coins: set<string>, more: set<string>)
    requires coins <= more && forall a :: a in more && a !in coins ==> Owned(b, a) == 0.0
    ensures Total(b, base, more) == Total(b, base, coins)
    decreases more
  {
    if a :| a in more && a !in coins {
      TotalSplits(b, base, more, a);
      UnownedIsWorthless(b, base, a);
      TotalOfMore(b, base, coins, more - {a});
    } else {
      assert more == coins;
    }
  }

  /** The equity depends on what is owned, the short averages and the closes. */
  lemma EquityOfOwned(b: Book, r: Book, base: string)
    requires b.assets.Keys <= r.assets.Keys && r.avgShort == b.avgShort && r.last == b.last
    requires forall coin :: Owned(r, coin) == Owned(b, coin)
    ensures EquityOf(r, base) == EquityOf(b, base)
  {
    assert Owned(r, base) == Owned(b, base);
    forall a | a in r.assets.Keys && a !in b.assets.Keys ensures Owned(r, a) == 0.0 { assert Owned(b, a) == 0.0; }
    forall a | a in b.assets.Keys ensures Line(b, base, a) == Line(r, base, a) {
      assert Owned(r, a) == Owned(b, a);
    }
    hide HoldingValue, Close;
    TotalAgrees(b, r, base, b.assets.Keys);
    TotalOfMore(r, base, b.assets.Keys, r.assets.Keys);
  }

  /** Placing an order that waits, accepted or not, leaves the equity as it is, unless it buys back a short. */
  lemma WaitingKeepsEquity(b: Book, base: string, cmd: Command)
    requires Places(cmd) && !cmd.MarketOrder? && Sensible(b, TermsOf(b, cmd))
    requires TermsOf(b, cmd).side == Buy ==> Free(b, TermsOf(b, cmd).pair.asset) >= 0.0
    ensures EquityOf(Step(b, cmd), base) == EquityOf(b, base)
  {
    var t := TermsOf(b, cmd);
    hide Fund, Accepts, EquityOf, Bought, Liquidated;
    var touched, funded := Touch(b, t.pair), Funded(b, t);
    forall coin ensures Owned(touched, coin) == Owned(b, coin) { TouchChangesNothing(b, t.pair, coin); }
    EquityOfOwned(b, touched, base);
    forall coin ensures Owned(funded, coin) == Owned(b, coin) {
      PendingOwns(b, t, coin);
      if t.side == Buy { NothingCovered(b, t); }
    }
    PendingLocks(b, t);
    EquityOfOwned(b, funded, base);
    hide Owned;
    var r := Step(b, cmd);
    if Accepts(b, t.side, t.pair, t.size, t.price) {
      assert r == funded.(orders := r.orders, counter := r.counter);
      EquityIgnoresOrders(funded, r.orders, r.counter, base);
    }
  }

  lemma NothingCovered(b: Book, t: Terms)
    requires Sensible(b, t) && t.side == Buy && Free(b, t.pair.asset) >= 0.0
    ensures Bought(b, t) == t.size
  {
  }

  /** Cancelling leaves it as it is, too, whatever is refunded. */
  lemma CancelKeepsEquity(b: Book, base: string, i: nat)
    requires i < |b.orders|
    ensures EquityOf(CancelOrder(b, i), base) == EquityOf(b, base)
  {
    var r := CancelOrder(b, i);
    forall coin ensures Owned(r, coin) == Owned(b, coin) { CancelOwns(b, i, coin); }
    CancelOwns(b, i, base);
    assert b.assets.Keys <= r.assets.Keys;
    hide CancelOrder, EquityOf, Owned;
    EquityOfOwned(b, r, base);
  }

  // ----- the equity of a long-only wallet -----

  ghost function Summed(f: string -> real, coins: set<string>): real {
    if coins == {} then 0.0 else var a :| a in coins; f(a) + Summed(f, coins - {a})
  }

  /** What a unit of the coin is worth: one for the base coin, else the close of its pair with it. */
  function PriceIn(b: Book, base: string, a: string): real {
    if a == base then 1.0 else if Pair(a, base) in b.last then b.last[Pair(a, base)].close else 0.0
  }

  /** The initial amount and what the fills moved, at the price of the day. */
  function Worthwhile(b: Book, initial: map<string, real>, base: string): string -> real {
    (a: string) => Worth(Lookup(initial, a) + Sum(Flow(a), b.orders) + Sum(Slip(a), b.orders), PriceIn(b, base, a))
  }

  lemma {:induction false} SummedSplits(f: string -> real, coins: set<string>, x: string)
    requires x in coins
    ensures Summed(f, coins) == f(x) + Summed(f, coins - {x})
    decreases coins
  {
    var a :| a in coins && Summed(f, coins) == f(a) + Summed(f, coins - {a});
    if a != x {
      SummedSplits(f, coins - {a}, x);
      SummedSplits(f, coins - {x}, a);
      assert coins - {a} - {x} == coins - {x} - {a};
    }
  }

  lemma {:induction false} TotalIsSummed(b: Book, base: string, f: string -> real, coins: set<string>)
    requires forall a :: a in coins ==> Line(b, base, a) == f(a)
    ensures Total(b, base, coins) == Summed(f, coins)
    decreases coins
  {
    if coins != {} {
      var a :| a in coins && Total(b, base, coins) == Line(b, base, a) + Total(b, base, coins - {a});
      TotalIsSummed(b, base, f, coins - {a});
      SummedSplits(f, coins, a);
    }
  }

  /** The line of a coin whose books balance. */
  lemma LineIsWorth(b: Book, initial: map<string, real>, base: string, a: string)
    requires Balanced(b, initial, a) && Lock(b, a) >= 0.0 && a != base
    ensures Line(b, base, a) == Worthwhile(b, initial, base)(a) == AmountAtClose(b, base, a)
  {
    hide Worth, Locked;
  }

  lemma BaseIsWorth(b: Book, initial: map<string, real>, base: string)
    requires Balanced(b, initial, base) && Lock(b, base) >= 0.0 && Pair(base, base) !in b.last
    ensures Line(b, base, base) == 0.0 && Worthwhile(b, initial, base)(base) == Free(b, base) + Lock(b, base)
  {
    Funding.WorthOfFree(Free(b, base) + Lock(b, base));
    hide Locked;
  }

  /** In a balanced wallet the equity is, over all its coins, what was there at first and what the fills have moved,
      at the closes; and the curve of a coin records that coin's part. */
  lemma EquityIsWorth(b: Book, initial: map<string, real>, base: string)
    requires Sound(b, initial) && Pair(base, base) !in b.last
    ensures EquityOf(b, base) == Summed(Worthwhile(b, initial, base), b.assets.Keys + {base})
    ensures forall a :: a != base ==> AmountAtClose(b, base, a) == Worthwhile(b, initial, base)(a)
  {
    hide WellFormed, Plain, Grouped, Locked, Balanced, Worthwhile, Line, AmountAtClose;
    var f, rest := Worthwhile(b, initial, base), b.assets.Keys - {base};
    forall a ensures Lock(b, a) >= 0.0 && Balanced(b, initial, a) { BalancedLock(b, initial, a); }
    forall a | a != base ensures Line(b, base, a) == f(a) == AmountAtClose(b, base, a) {
      LineIsWorth(b, initial, base, a);
    }
    BaseIsWorth(b, initial, base);
    TotalIsSummed(b, base, f, rest);
    SummedSplits(f, b.assets.Keys + {base}, base);
    assert b.assets.Keys + {base} - {base} == rest;
    if base in b.assets { TotalSplits(b, base, b.assets.Keys, base); } else { assert b.assets.Keys == rest; }
  }

  lemma BalancedLock(b: Book, initial: map<string, real>, a: string)
    requires Sound(b, initial)
    ensures Balanced(b, initial, a) && Lock(b, a) >= 0.0
  {
    hide WellFormed, Grouped, Plain;
    assert Balanced(b, initial, a);
    LocksAreNonNegative(b, a);
  }

  /** So after every long-only run, what is locked by waiting orders included. */
  lemma RunIsWorth(initial: map<string, real>, cmds: seq<Command>, base: string)
    requires forall a :: a in initial ==> initial[a] >= 0.0
    requires Legal(Opening(initial), cmds) && Pair(base, base) !in Run(Opening(initial), cmds).last
    ensures var b := Run(Opening(initial), cmds);
      EquityOf(b, base) == Summed(Worthwhile(b, initial, base), b.assets.Keys + {base})
  {
    hide Opening, Legal, Run, Sound, Worthwhile;
    OpeningIsSound(initial);
    RunKeepsSound(Opening(initial), initial, cmds);
    EquityIsWorth(Run(Opening(initial), cmds), initial, base);
  }

  /** And after every long-only backtest. */
  lemma BacktestIsWorth(
    initial: map<string, real>, stream: seq<Candle>, setups: map<Pair, Setup>, script: nat -> seq<Command>,
    base: string)
    requires forall a :: a in initial ==> initial[a] >= 0.0
    requires LongOnlyStrategy(Opening(initial), stream, setups, script)
    requires Pair(base, base) !in Replay(Opening(initial), stream, setups, script).last
    ensures var b := Replay(Opening(initial), stream, setups, script);
      EquityOf(b, base) == Summed(Worthwhile(b, initial, base), b.assets.Keys + {base})
  {
    hide Opening, Replay, Sound, Worthwhile, LongOnlyStrategy;
    OpeningIsSound(initial);
    BacktestKeepsSound(Opening(initial), initial, stream, setups, script);
    EquityIsWorth(Replay(Opening(initial), stream, setups, script), initial, base);
  }

  // ----- curves -----

  predicate OnePerTime(values: seq<AssetValue>) {
    forall i, j :: 0 <= i < j < |values| ==> values[i].time < values[j].time
  }

  /** A curve has one value a time: recording a value replaces the one of its time, if it is the last, and keeps all
      others. */
  lemma RecordedOnce(values: seq<AssetValue>, time: int, value: real)
    requires OnePerTime(values) && forall x :: x in values ==> x.time <= time
    ensures OnePerTime(Record(values, time, value))
    ensures var r := Record(values, time, value);
      forall x :: x in r <==> x == AssetValue(time, value) || (x in values && x.time != time)
  {
    var r, n := Record(values, time, value), |values|;
    assert forall i :: 0 <= i < n ==> values[i] in values;
    assert r[|r| - 1] == AssetValue(time, value);
    forall x | x in values && x.time != time ensures x in r {
      var i :| 0 <= i < n && values[i] == x;
      assert r[i] == x;
    }
  }
}
