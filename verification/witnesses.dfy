/** Short runs from an opening wallet that reach the states in which the engine does the unexpected. */
module Witnesses {
  import opened Types
  import opened WalletSpec
  import opened LongOnly
  import opened Equity
  import opened Positions

  const BTC := Pair("BTC", "USDT")

  function CloseAt(price: real, time: int): Candle {
    Candle(BTC, time, time, price, price, price, price, 1.0, true)
  }

  function MoneyOnly(): Book { Opening(map["USDT" := 100.0]) }

  /** Two coins are sold short at 10, then the price rises to 70. */
  function ShortRun(): Book {
    Tick(PlaceMarket(Tick(MoneyOnly(), CloseAt(10.0, 1)), Sell, BTC, 2.0), CloseAt(70.0, 2))
  }

  lemma FirstTick(b: Book, c: Candle)
    requires b.orders == []
    ensures Tick(b, c) == b.(last := b.last[c.pair := c])
  {
  }

  lemma TickAfterMarket(b: Book, c: Candle)
    requires |b.orders| == 1 && b.orders[0].status == Filled
    ensures Tick(b, c) == b.(last := b.last[c.pair := c])
  {
    var t := b.(last := b.last[c.pair := c]);
    assert Scan(t, c, 0) == t;
    assert Scan(t, c, 1) == t;
  }

  /** The open short of a flat wallet with nothing locked. */
  lemma ShortOpened(b: Book)
    requires Free(b, "BTC") == 0.0 && Lock(b, "BTC") == 0.0 && Free(b, "USDT") == 100.0 && Close(b, BTC) == 10.0
    requires b.orders == [] && BaseUnpriced(b, "USDT")
    ensures var r := PlaceMarket(b, Sell, BTC, 2.0);
      && Free(r, "BTC") == -2.0 && Free(r, "USDT") == 80.0 && Lock(r, "BTC") == 0.0
      && Lookup(r.avgShort, BTC) == 10.0 && BaseUnpriced(r, "USDT")
      && |r.orders| == 1 && r.orders[0].status == Filled
  {
    var t := Touch(b, BTC);
    TouchIsSilent(b, "USDT", BTC);
    SellEffect(t, BTC, 2.0, 10.0);
    MarketSellFrame(t, BTC, 2.0, 10.0);
    assert Worth(2.0, 10.0) == 20.0 && Worth(0.0, 10.0) == 0.0;
    assert Accepts(b, Sell, BTC, 2.0, 10.0);
    hide FillMarketSell, Touch, Accepts;
  }

  lemma ShortRunState()
    ensures var b := ShortRun();
      && Free(b, "BTC") == -2.0 && Free(b, "USDT") == 80.0 && Lock(b, "BTC") == 0.0
      && Lookup(b.avgShort, BTC) == 10.0 && Close(b, BTC) == 70.0 && BaseUnpriced(b, "USDT")
  {
    FirstTick(MoneyOnly(), CloseAt(10.0, 1));
    hide Tick, PlaceMarket;
    var b := Tick(MoneyOnly(), CloseAt(10.0, 1));
    ShortOpened(b);
    TickAfterMarket(PlaceMarket(b, Sell, BTC, 2.0), CloseAt(70.0, 2));
  }

  /** Buying back one of the two coins is accepted, overdraws the quote coin and changes the equity. */
  lemma PartialCoverRun()
    ensures var b := ShortRun();
      var r := PlaceMarket(b, Buy, BTC, 1.0);
      && Accepts(b, Buy, BTC, 1.0, Close(b, BTC)) && PartialCover(b, Buy, BTC, 1.0)
      && EquityOf(r, "USDT") != EquityOf(b, "USDT") && Free(r, "USDT") < 0.0
  {
    hide ShortRun, PlaceMarket, EquityOf, BaseUnpriced;
    var b := ShortRun();
    ShortRunState();
    assert Liquid(b, BTC, 70.0) == -100.0;
    assert Worth(-1.0, 70.0) == -70.0;
    MarketOrderIsNeutral(b, "USDT", Buy, BTC, 1.0);
    MarketOrderDoesNotOverdraw(b, Buy, BTC, 1.0);
  }

  /** After the same short, a candle that closes at zero: a further sell moves no coin but the short's average, and
      so the equity. */
  lemma UnpricedSellRun()
    ensures var b := Tick(ShortRun(), CloseAt(0.0, 3));
      var r := PlaceMarket(b, Sell, BTC, 1.0);
      && UnpricedSell(b, Sell, BTC, 1.0) && Accepts(b, Sell, BTC, 1.0, Close(b, BTC))
      && Free(r, "BTC") == Free(b, "BTC") && EquityOf(r, "USDT") != EquityOf(b, "USDT")
  {
    hide ShortRun, EquityOf, BaseUnpriced, Accepts, FillMarketSell, Touch;
    var s, b := ShortRun(), Tick(ShortRun(), CloseAt(0.0, 3));
    ShortRunState();
    ShortRunOrders();
    TickAfterMarket(s, CloseAt(0.0, 3));
    hide Tick;
    StillUnpriced(s, b);
    FreeOfQuote(b);
    MarketOrderIsNeutral(b, "USDT", Sell, BTC, 1.0);
    TouchIsSilent(b, "USDT", BTC);
    UnpricedSellEffect(Touch(b, BTC), BTC, 1.0, 0.0);
  }

  lemma ShortRunOrders()
    ensures |ShortRun().orders| == 1 && ShortRun().orders[0].status == Filled
  {
    FirstTick(MoneyOnly(), CloseAt(10.0, 1));
    hide Tick, PlaceMarket;
    var b := Tick(MoneyOnly(), CloseAt(10.0, 1));
    ShortOpened(b);
    TickAfterMarket(PlaceMarket(b, Sell, BTC, 2.0), CloseAt(70.0, 2));
  }

  lemma StillUnpriced(s: Book, b: Book)
    requires BaseUnpriced(s, "USDT") && b == s.(last := s.last[BTC := CloseAt(0.0, 3)])
    ensures BaseUnpriced(b, "USDT")
  {
  }

  lemma FreeOfQuote(b: Book)
    requires Free(b, "USDT") == 80.0 && Free(b, "BTC") == -2.0
    ensures Accepts(b, Sell, BTC, 1.0, 0.0)
  {
  }

  /** A long of ten coins bought at 10 of which six are sold at 12 has gained 12, but 8 is reported. */
  lemma PartialSaleReport()
    ensures var buy := Draft(1, 1, Buy, BTC, Market, Filled, 10.0, 10.0, None, None);
      var sale := Draft(2, 2, Sell, BTC, Market, Filled, 12.0, 6.0, None, None);
      var m := ApplyAll(map[], [buy]);
      BTC in m && Gain(m[BTC], sale) == 12.0 && Realized(m[BTC], sale) == Some(8.0)
  {
    var buy := Draft(1, 1, Buy, BTC, Market, Filled, 10.0, 10.0, None, None);
    ReplayOne([], buy);
    assert [] + [buy] == [buy] && ApplyAll(map[], []) == map[];
    assert Worth(4.0, 2.0) == 8.0 && Worth(6.0, 2.0) == 12.0;
  }

  /** Selling two coins while holding one leaves a short of two. */
  lemma CrossingRun()
    ensures var b := Tick(Opening(map["BTC" := 1.0, "USDT" := 100.0]), CloseAt(10.0, 1));
      && Accepts(b, Sell, BTC, 2.0, Close(b, BTC)) && Free(b, "BTC") == 1.0
      && Free(PlaceMarket(b, Sell, BTC, 2.0), "BTC") == -2.0
  {
    var start := Opening(map["BTC" := 1.0, "USDT" := 100.0]);
    FirstTick(start, CloseAt(10.0, 1));
    var b := start.(last := map[BTC := CloseAt(10.0, 1)]);
    assert Tick(start, CloseAt(10.0, 1)) == b;
    hide Tick;
    assert Worth(1.0, 10.0) == 10.0 && Worth(2.0, 10.0) == 20.0;
  }

  /** A sell that locks the coin, then a buy: cancelling the buy leaves its money locked. */
  lemma LockedCancelRun()
    ensures var initial := map["BTC" := 1.0, "USDT" := 10.0];
      var cmds := [LimitOrder(Sell, BTC, 1.0, 20.0), LimitOrder(Buy, BTC, 1.0, 5.0)];
      && Legal(Opening(initial), cmds)
      && var b := Run(Opening(initial), cmds);
         |b.orders| == 2 && Sound(b, initial) && Withdrawable(b, 1) && !Sound(CancelOrder(b, 1), initial)
  {
    var initial := map["BTC" := 1.0, "USDT" := 10.0];
    var start, sell, buy := Opening(initial), LimitOrder(Sell, BTC, 1.0, 20.0), LimitOrder(Buy, BTC, 1.0, 5.0);
    OpeningIsSound(initial);
    hide Opening, Step, Sound, CancelOrder, Allowed;
    CoinAndMoney();
    SellLocks(start);
    BuyWaits(Step(start, sell));
    RunTwo(start, sell, buy);
    RunKeepsSound(start, initial, [sell, buy]);
    CancelBalancesIff(Run(start, [sell, buy]), initial, 1);
  }

  lemma LimitPlaced(b: Book, side: Side, size: real, price: real, coin: string)
    requires Allowed(b, LimitOrder(side, BTC, size, price)) && size > 0.0 && Free(b, "BTC") >= 0.0
    requires Accepts(b, side, BTC, size, price)
    ensures var r := Step(b, LimitOrder(side, BTC, size, price));
      && Free(r, coin) == Free(b, coin) + FreeChange(side, BTC, size, price, false, coin)
      && Lock(r, coin) == Lock(b, coin) + LockChange(side, BTC, size, price, false, coin)
      && |r.orders| == |b.orders| + 1
      && r.orders[|b.orders|].status == New && r.orders[|b.orders|].group.None?
      && r.orders[|b.orders|].side == side && r.orders[|b.orders|].pair == BTC
  {
    FundingIsExact(b, side, BTC, size, price, false, coin);
    hide Fund, FreeChange, LockChange;
  }

  lemma SellLocks(b: Book)
    requires Free(b, "BTC") == 1.0 && Lock(b, "BTC") == 0.0 && Free(b, "USDT") == 10.0 && b.orders == []
    ensures var sell := LimitOrder(Sell, BTC, 1.0, 20.0);
      var r := Step(b, sell);
      Allowed(b, sell) && Free(r, "BTC") == 0.0 && Lock(r, "BTC") == 1.0 && Free(r, "USDT") == 10.0 && |r.orders| == 1
  {
    assert Worth(1.0, 20.0) == 20.0;
    LimitPlaced(b, Sell, 1.0, 20.0, "BTC");
    LimitPlaced(b, Sell, 1.0, 20.0, "USDT");
    hide Step, Worth;
  }

  lemma BuyWaits(b: Book)
    requires Free(b, "BTC") == 0.0 && Lock(b, "BTC") == 1.0 && Free(b, "USDT") == 10.0 && |b.orders| == 1
    ensures var buy := LimitOrder(Buy, BTC, 1.0, 5.0);
      var r := Step(b, buy);
      Allowed(b, buy) && |r.orders| == 2 && Withdrawable(r, 1) && !Refunds(r, 1)
  {
    assert Worth(1.0, 5.0) == 5.0;
    LimitPlaced(b, Buy, 1.0, 5.0, "BTC");
    hide Step, Worth;
  }

  lemma CoinAndMoney()
    ensures var b := Opening(map["BTC" := 1.0, "USDT" := 10.0]);
      Free(b, "BTC") == 1.0 && Lock(b, "BTC") == 0.0 && Free(b, "USDT") == 10.0 && b.orders == []
  {
  }
}
