/** The wallet's mark-to-market value, and what an executed market order does to it. */
module Equity {
  import opened Types
  import opened WalletSpec

  datatype AssetValue = AssetValue(time: int, value: real)

  /** The value of a holding: a long at the close, a short at its liquidation value. */
  function HoldingValue(amount: real, avgShort: real, close: real): real {
    if amount < 0.0 then ShortValue(-amount, avgShort, close) else Worth(amount, close)
  }

  /** What coin a adds to the total, priced by its pair with the base coin. */
  function Line(b: Book, base: string, a: string): real {
    HoldingValue(Free(b, a) + Lock(b, a), Lookup(b.avgShort, Pair(a, base)), Close(b, Pair(a, base)))
  }

  ghost function Total(b: Book, base: string, coins: set<string>): real {
    if coins == {} then 0.0 else var a :| a in coins; Line(b, base, a) + Total(b, base, coins - {a})
  }

  ghost function EquityOf(b: Book, base: string): real {
    Total(b, base, b.assets.Keys) + Free(b, base) + Lock(b, base)
  }

  /** One value per time: a second one at the same time replaces the first. */
  function Record(values: seq<AssetValue>, time: int, value: real): seq<AssetValue> {
    if values != [] && values[|values|-1].time == time
    then values[|values|-1 := AssetValue(time, value)]
    else values + [AssetValue(time, value)]
  }

  function CurveOf(curves: map<string, seq<AssetValue>>, a: string): seq<AssetValue> {
    if a in curves then curves[a] else []
  }

  /** The coins' curves with each coin's amount at its close recorded, long or short. */
  function AssetCurves(curves: map<string, seq<AssetValue>>, b: Book, base: string, time: int)
    : map<string, seq<AssetValue>>
  {
    map a | a in curves.Keys + b.assets.Keys ::
      if a !in b.assets then curves[a]
      else Record(CurveOf(curves, a), time, AmountAtClose(b, base, a))
  }

  function AmountAtClose(b: Book, base: string, a: string): real {
    Worth(Free(b, a) + Lock(b, a), Close(b, Pair(a, base)))
  }

  /** The curves while those of `coins` are still to be recorded. */
  ghost predicate CurvesBut(now: map<string, seq<AssetValue>>, curves: map<string, seq<AssetValue>>, b: Book,
                            base: string, time: int, coins: set<string>)
  {
    && now.Keys == curves.Keys + (b.assets.Keys - coins)
    && (forall a :: a in b.assets && a !in coins ==>
          now[a] == Record(CurveOf(curves, a), time, AmountAtClose(b, base, a)))
    && (forall a :: a in curves && (a !in b.assets || a in coins) ==> now[a] == curves[a])
  }

  lemma NoCurveYet(curves: map<string, seq<AssetValue>>, b: Book, base: string, time: int)
    ensures CurvesBut(curves, curves, b, base, time, b.assets.Keys)
  {
  }

  lemma NextCurve(now: map<string, seq<AssetValue>>, curves: map<string, seq<AssetValue>>, b: Book,
                  base: string, time: int, coins: set<string>, a: string)
    requires CurvesBut(now, curves, b, base, time, coins) && a in coins && coins <= b.assets.Keys
    ensures CurvesBut(now[a := Record(CurveOf(now, a), time, AmountAtClose(b, base, a))],
                      curves, b, base, time, coins - {a})
  {
    hide Record, AmountAtClose;
  }

  lemma AllCurves(now: map<string, seq<AssetValue>>, curves: map<string, seq<AssetValue>>, b: Book,
                  base: string, time: int)
    requires CurvesBut(now, curves, b, base, time, {})
    ensures now == AssetCurves(curves, b, base, time)
  {
    hide Record, AmountAtClose;
  }

  lemma NothingLeft(b: Book, base: string)
    ensures Total(b, base, {}) == 0.0
  {
  }

  /** The total does not depend on the order in which coins are visited. */
  lemma {:induction false} TotalSplits(b: Book, base: string, coins: set<string>, x: string)
    requires x in coins
    ensures Total(b, base, coins) == Line(b, base, x) + Total(b, base, coins - {x})
    decreases coins
  {
    var a :| a in coins && Total(b, base, coins) == Line(b, base, a) + Total(b, base, coins - {a});
    if a != x {
      TotalSplits(b, base, coins - {a}, x);
      TotalSplits(b, base, coins - {x}, a);
      assert coins - {a} - {x} == coins - {x} - {a};
    }
  }

  lemma {:induction false} TotalAgrees(b: Book, c: Book, base: string, coins: set<string>)
    requires forall a :: a in coins ==> Line(b, base, a) == Line(c, base, a)
    ensures Total(b, base, coins) == Total(c, base, coins)
    decreases coins
  {
    if coins != {} {
      var a :| a in coins && Total(b, base, coins) == Line(b, base, a) + Total(b, base, coins - {a});
      TotalAgrees(b, c, base, coins - {a});
      TotalSplits(c, base, coins, a);
    }
  }

  // ----- market orders -----

  /** The base coin has no pair with itself, so nothing prices it. */
  ghost predicate BaseUnpriced(b: Book, base: string) {
    Pair(base, base) !in b.last && Pair(base, base) !in b.avgShort
  }

  lemma BaseLineIsZero(b: Book, base: string)
    requires BaseUnpriced(b, base)
    ensures Line(b, base, base) == 0.0
  {
    assert Worth(Free(b, base) + Lock(b, base), 0.0) == 0.0;
    assert ShortValue(-(Free(b, base) + Lock(b, base)), 0.0, 0.0) == 0.0;
  }

  /** A change to one coin and to the base coin moves the equity by those two changes. */
  lemma EquityMoves(b: Book, c: Book, base: string, a: string)
    requires a != base && BaseUnpriced(b, base) && BaseUnpriced(c, base)
    requires c.assets.Keys == b.assets.Keys + {a, base} && b.last == c.last
    requires forall x :: x != a && x != base ==> Get(c.assets, x) == Get(b.assets, x)
    requires forall p: Pair :: p.asset != a ==> Lookup(c.avgShort, p) == Lookup(b.avgShort, p)
    ensures EquityOf(c, base) - EquityOf(b, base)
         == Line(c, base, a) - Line(b, base, a)
            + (Free(c, base) + Lock(c, base)) - (Free(b, base) + Lock(b, base))
  {
    var rest := b.assets.Keys - {a, base};
    RestOfTotal(b, base, a);
    RestOfTotal(c, base, a);
    assert c.assets.Keys - {a, base} == rest;
    TotalAgrees(b, c, base, rest);
  }

  lemma RestOfTotal(b: Book, base: string, a: string)
    requires a != base && BaseUnpriced(b, base)
    ensures Total(b, base, b.assets.Keys) == Line(b, base, a) + Total(b, base, b.assets.Keys - {a, base})
  {
    var coins := b.assets.Keys;
    BaseLineIsZero(b, base);
    if a in coins {
      TotalSplits(b, base, coins, a);
    } else {
      assert coins - {a} == coins;
      assert Worth(0.0, Close(b, Pair(a, base))) == 0.0;
    }
    if base in coins { TotalSplits(b, base, coins - {a}, base); }
    assert coins - {a} - {base} == coins - {a, base};
    assert base !in coins ==> coins - {a} == coins - {a, base};
  }

  lemma BlendKeepsCost(held: real, avg: real, amount: real, value: real)
    requires held >= 0.0 && amount > 0.0
    ensures Worth(held + amount, Blend(held, avg, amount, value)) == Worth(held, avg) + Worth(amount, value)
  {
    if held > 0.0 {
      var cost, n := Worth(held, avg) + Worth(amount, value), held + amount;
      assert n * (cost / n) == cost;
    }
  }

  /** A buy that returns only part of a short. */
  predicate PartialCover(b: Book, side: Side, pair: Pair, amount: real) {
    side == Buy && Free(b, pair.asset) < 0.0 && amount < -Free(b, pair.asset)
  }

  /** The value of an asset position on its own: what it adds to the equity. */
  function Position(b: Book, pair: Pair, price: real): real {
    HoldingValue(Free(b, pair.asset), Lookup(b.avgShort, pair), price)
  }

  /** Where a market sell leaves the two balances and the short's average. */
  lemma SellEffect(b: Book, pair: Pair, amount: real, price: real)
    requires amount > 0.0 && pair.asset != pair.quote && (price > 0.0 || amount <= Free(b, pair.asset))
    ensures var r, f := FillMarketSell(b, pair, amount, price), Free(b, pair.asset);
      && Free(r, pair.asset) == (if 0.0 < f < amount then -amount else f - amount)
      && Free(r, pair.quote) == Free(b, pair.quote)
           + (if amount <= f then Worth(amount, price) else -Worth(amount - MaxReal(f, 0.0), price))
      && (f < amount ==>
            Lookup(r.avgShort, pair) == Blend(-f, Lookup(b.avgShort, pair), amount, price))
  {
  }

  /** Without a price only what is held is sold, but the short's average moves nevertheless. */
  lemma UnpricedSellEffect(b: Book, pair: Pair, amount: real, price: real)
    requires amount > 0.0 && pair.asset != pair.quote && price <= 0.0 && Free(b, pair.asset) < amount
    ensures var r, f := FillMarketSell(b, pair, amount, price), Free(b, pair.asset);
      && Free(r, pair.asset) == MinReal(f, 0.0)
      && Free(r, pair.quote) == Free(b, pair.quote) + Worth(MaxReal(f, 0.0), price)
      && Lookup(r.avgShort, pair) == if f < 0.0 then Blend(-f, Lookup(b.avgShort, pair), amount, price) else price
  {
  }

  /** So it changes the value exactly if there is a short at another average than the price. */
  lemma UnpricedSellValue(b: Book, pair: Pair, amount: real, price: real)
    requires amount > 0.0 && pair.asset != pair.quote && price <= 0.0 && Free(b, pair.asset) < amount
    ensures var r := FillMarketSell(b, pair, amount, price);
      Position(r, pair, price) + Free(r, pair.quote) == Position(b, pair, price) + Free(b, pair.quote)
      <==> Free(b, pair.asset) >= 0.0 || Lookup(b.avgShort, pair) == price
  {
    UnpricedSellEffect(b, pair, amount, price);
    hide FillMarketSell;
    var f, avg := Free(b, pair.asset), Lookup(b.avgShort, pair);
    if f < 0.0 {
      BlendMoves(-f, avg, amount, price);
      SameWorth(-f, Blend(-f, avg, amount, price), avg);
    }
  }

  lemma BlendMoves(held: real, avg: real, amount: real, value: real)
    requires held > 0.0 && amount > 0.0
    ensures Blend(held, avg, amount, value) == avg <==> avg == value
  {
    var mean := Blend(held, avg, amount, value);
    assert mean * (held + amount) == held * avg + amount * value;
    assert (mean - avg) * (held + amount) == amount * (value - avg);
  }

  lemma SameWorth(q: real, x: real, y: real)
    requires q != 0.0
    ensures Worth(q, x) == Worth(q, y) <==> x == y
  {
    assert Worth(q, x) - Worth(q, y) == q * (x - y);
  }

  lemma SellValue(b: Book, pair: Pair, amount: real, price: real)
    requires amount > 0.0 && pair.asset != pair.quote && (price > 0.0 || amount <= Free(b, pair.asset))
    ensures var r := FillMarketSell(b, pair, amount, price);
      Position(r, pair, price) + Free(r, pair.quote) == Position(b, pair, price) + Free(b, pair.quote)
  {
    SellEffect(b, pair, amount, price);
    hide FillMarketSell;
    var f := Free(b, pair.asset);
    WorthOfDifference(f, amount, price);
    if f <= 0.0 {
      BlendKeepsCost(-f, Lookup(b.avgShort, pair), amount, price);
      assert Worth(-f + amount, price) == Worth(-f, price) + Worth(amount, price);
      assert f < 0.0 || Worth(-f, Lookup(b.avgShort, pair)) == 0.0;
    }
  }

  lemma BuyEffect(b: Book, pair: Pair, amount: real, price: real)
    requires amount > 0.0 && pair.asset != pair.quote
    ensures var r, f := FillMarketBuy(b, pair, amount, price), Free(b, pair.asset);
      && Free(r, pair.asset) == f + amount
      && Free(r, pair.quote) == Free(b, pair.quote) + Liquid(b, pair, price)
           - (if f >= 0.0 then Worth(amount, price) else Worth(amount - MinReal(-f, amount), price))
  {
  }

  lemma WorthOfDifference(x: real, y: real, price: real)
    ensures Worth(x - y, price) == Worth(x, price) - Worth(y, price)
    ensures Worth(y - x, price) == Worth(y, price) - Worth(x, price)
  {
  }

  lemma BuyValue(b: Book, pair: Pair, amount: real, price: real)
    requires amount > 0.0 && pair.asset != pair.quote
    ensures var r := FillMarketBuy(b, pair, amount, price);
      Position(r, pair, price) + Free(r, pair.quote)
      == Position(b, pair, price) + Free(b, pair.quote)
         + if PartialCover(b, Buy, pair, amount)
           then ShortValue(-Free(b, pair.asset) - amount, Lookup(b.avgShort, pair), price) else 0.0
  {
    var f := Free(b, pair.asset);
    if f >= 0.0 {
      assert Worth(f + amount, price) == Worth(f, price) + Worth(amount, price);
    }
  }

  /** A market order touches its two coins and the average of its pair. */
  lemma MarketSellFrame(b: Book, pair: Pair, amount: real, price: real)
    requires pair.asset != pair.quote
    ensures var r := FillMarketSell(b, pair, amount, price);
      && (forall x :: x != pair.asset && x != pair.quote ==> Get(r.assets, x) == Get(b.assets, x))
      && (forall p: Pair :: p != pair ==> (p in r.avgShort <==> p in b.avgShort))
      && (forall p: Pair :: p != pair ==> Lookup(r.avgShort, p) == Lookup(b.avgShort, p))
      && Lock(r, pair.asset) == Lock(b, pair.asset) && Lock(r, pair.quote) == Lock(b, pair.quote)
  {
    hide Worth, Blend;
  }

  lemma MarketBuyFrame(b: Book, pair: Pair, amount: real, price: real)
    requires pair.asset != pair.quote
    ensures var r := FillMarketBuy(b, pair, amount, price);
      && (forall x :: x != pair.asset && x != pair.quote ==> Get(r.assets, x) == Get(b.assets, x))
      && (forall p: Pair :: Lookup(r.avgShort, p) == Lookup(b.avgShort, p)) && r.avgShort.Keys == b.avgShort.Keys
      && Lock(r, pair.asset) == Lock(b, pair.asset) && Lock(r, pair.quote) == Lock(b, pair.quote)
  {
    hide Worth, Blend, Liquid;
  }

  lemma MarketOrderFrame(b: Book, side: Side, pair: Pair, amount: real, price: real)
    requires pair.asset != pair.quote
    ensures var r := Fund(b, side, pair, amount, price, true);
      && (forall x :: x != pair.asset && x != pair.quote ==> Get(r.assets, x) == Get(b.assets, x))
      && (forall p: Pair :: p != pair ==> (p in r.avgShort <==> p in b.avgShort))
      && (forall p: Pair :: p != pair ==> Lookup(r.avgShort, p) == Lookup(b.avgShort, p))
      && Lock(r, pair.asset) == Lock(b, pair.asset) && Lock(r, pair.quote) == Lock(b, pair.quote)
  {
    hide FillMarketSell, FillMarketBuy, Get;
    if side == Sell { MarketSellFrame(b, pair, amount, price); } else { MarketBuyFrame(b, pair, amount, price); }
  }

  lemma TouchIsSilent(b: Book, base: string, pair: Pair)
    requires pair.quote == base && pair.asset != base && BaseUnpriced(b, base)
    ensures EquityOf(Touch(b, pair), base) == EquityOf(b, base)
    ensures Free(Touch(b, pair), pair.asset) == Free(b, pair.asset)
    ensures Free(Touch(b, pair), base) == Free(b, base)
    ensures Lock(Touch(b, pair), pair.asset) == Lock(b, pair.asset)
  {
    EquityMoves(b, Touch(b, pair), base, pair.asset);
  }

  lemma EquityIgnoresOrders(b: Book, orders: seq<Order>, counter: int, base: string)
    ensures EquityOf(b.(orders := orders, counter := counter), base) == EquityOf(b, base)
  {
    TotalAgrees(b, b.(orders := orders, counter := counter), base, b.assets.Keys);
  }

  /** A sell beyond what is held, in a pair without a price. */
  predicate UnpricedSell(b: Book, side: Side, pair: Pair, amount: real) {
    side == Sell && Close(b, pair) <= 0.0 && Free(b, pair.asset) < amount
  }

  /** What a partial cover adds: the value of the short that is left, once more. */
  function ExcessOfCover(b: Book, side: Side, pair: Pair, amount: real): real {
    if PartialCover(b, side, pair, amount)
    then ShortValue(-Free(b, pair.asset) - amount, Lookup(b.avgShort, pair), Close(b, pair)) else 0.0
  }

  lemma FundedEquity(b: Book, base: string, side: Side, pair: Pair, amount: real)
    requires pair.quote == base && pair.asset != base && BaseUnpriced(b, base)
    requires Lock(b, pair.asset) == 0.0 && amount > 0.0
    ensures var after := EquityOf(Fund(b, side, pair, amount, Close(b, pair), true), base);
      if UnpricedSell(b, side, pair, amount)
      then (after == EquityOf(b, base) <==>
              Free(b, pair.asset) >= 0.0 || Lookup(b.avgShort, pair) == Close(b, pair))
      else after == EquityOf(b, base) + ExcessOfCover(b, side, pair, amount)
  {
    var r := Fund(b, side, pair, amount, Close(b, pair), true);
    MarketOrderFrame(b, side, pair, amount, Close(b, pair));
    if UnpricedSell(b, side, pair, amount) {
      UnpricedSellValue(b, pair, amount, Close(b, pair));
    } else if side == Sell {
      SellValue(b, pair, amount, Close(b, pair));
    } else {
      BuyValue(b, pair, amount, Close(b, pair));
    }
    hide Fund;
    EquityMoves(b, r, base, pair.asset);
  }

  /** Executing an accepted market order leaves the equity at its price unchanged, whatever it does
      to the position, except when it covers part of a short: then the rest of the short is valued
      twice. So it is neutral exactly when it does not partly cover, or that rest is worth nothing; and, in a
      pair without a price, when it does not sell on top of a short of another average. */
  lemma MarketOrderIsNeutral(b: Book, base: string, side: Side, pair: Pair, amount: real)
    requires pair.quote == base && pair.asset != base && BaseUnpriced(b, base)
    requires Lock(b, pair.asset) == 0.0 && amount > 0.0
    requires Accepts(b, side, pair, amount, Close(b, pair))
    ensures EquityOf(PlaceMarket(b, side, pair, amount), base) == EquityOf(b, base)
      <==> (if UnpricedSell(b, side, pair, amount)
            then Free(b, pair.asset) >= 0.0 || Lookup(b.avgShort, pair) == Close(b, pair)
            else !PartialCover(b, side, pair, amount) || Close(b, pair) == 2.0 * Lookup(b.avgShort, pair))
  {
    var t := Touch(b, pair);
    var r := Fund(t, side, pair, amount, Close(b, pair), true);
    TouchIsSilent(b, base, pair);
    FundedEquity(t, base, side, pair, amount);
    var p := PlaceMarket(b, side, pair, amount);
    assert p == r.(orders := p.orders, counter := p.counter);
    EquityIgnoresOrders(r, p.orders, p.counter, base);
    ShortWorthNothing(-Free(b, pair.asset) - amount, Lookup(b.avgShort, pair), Close(b, pair));
  }

  lemma ShortWorthNothing(short: real, avg: real, price: real)
    ensures short > 0.0 ==> (ShortValue(short, avg, price) == 0.0 <==> price == 2.0 * avg)
  {
    assert ShortValue(short, avg, price) == short * (2.0 * avg - price);
  }

  /** The quote coin is not overdrawn by an accepted market order, except that partly covering a
      short may pay out a negative liquidation value. */
  lemma MarketOrderDoesNotOverdraw(b: Book, side: Side, pair: Pair, amount: real)
    requires pair.asset != pair.quote && amount > 0.0 && Close(b, pair) > 0.0
    requires Free(b, pair.quote) >= 0.0 && Accepts(b, side, pair, amount, Close(b, pair))
    ensures Free(PlaceMarket(b, side, pair, amount), pair.quote) >= 0.0
      <==> !PartialCover(b, side, pair, amount) || Free(b, pair.quote) + Liquid(b, pair, Close(b, pair)) >= 0.0
  {
    var t, f, price := Touch(b, pair), Free(b, pair.asset), Close(b, pair);
    if side == Sell {
      SellEffect(t, pair, amount, price);
      hide FillMarketSell;
      WorthOfDifference(amount, MaxReal(f, 0.0), price);
      PositiveWorth(amount, price);
    } else {
      BuyEffect(t, pair, amount, price);
      hide FillMarketBuy;
      if f < 0.0 && amount >= -f { assert amount + f == amount - -f; }
      if f < 0.0 && amount < -f { assert Worth(0.0, price) == 0.0; }
    }
  }

  /** A sell that crosses from long to short ends at the whole sold amount short, instead of the
      amount beyond the long: the long's proceeds stay in the short position. Without a price it enters no
      short at all. */
  lemma CrossingSellShortsTheWholeAmount(b: Book, pair: Pair, amount: real)
    requires pair.asset != pair.quote && amount > 0.0
    requires Accepts(b, Sell, pair, amount, Close(b, pair))
    ensures Free(PlaceMarket(b, Sell, pair, amount), pair.asset) == Free(b, pair.asset) - amount
      <==> !(0.0 < Free(b, pair.asset) < amount) && !UnpricedSell(b, Sell, pair, amount)
  {
    if UnpricedSell(b, Sell, pair, amount) {
      UnpricedSellEffect(Touch(b, pair), pair, amount, Close(b, pair));
    } else {
      SellEffect(Touch(b, pair), pair, amount, Close(b, pair));
    }
    hide FillMarketSell;
  }
}
