/** Which orders the wallet can pay for, and what funding one does to its coins, for every trader. */
module Funding {
  import opened Types
  import opened WalletSpec
  import opened Equity
  import opened LongOnly

  /** What an order is funded for. */
  datatype Terms = Terms(side: Side, pair: Pair, size: real, price: real, fill: bool)

  predicate Places(cmd: Command) { !cmd.Withdraw? && !cmd.NewCandle? }

  function TermsOf(b: Book, cmd: Command): Terms
    requires Places(cmd)
  {
    match cmd
    case LimitOrder(side, p, size, price) => Terms(side, p, size, price, false)
    case StopOrder(p, size, price) => Terms(Sell, p, size, price, false)
    case OcoOrder(p, size, price, _, _) => Terms(Sell, p, size, price, false)
    case MarketOrder(side, p, size) => Terms(side, p, size, Close(b, p), true)
  }

  function Funded(b: Book, t: Terms): Book { Fund(Touch(b, t.pair), t.side, t.pair, t.size, t.price, t.fill) }

  /** What is left of a short that the order covers in part; nothing in all other cases. */
  function RestOfShort(b: Book, t: Terms): real {
    if PartialCover(b, t.side, t.pair, t.size) then -Free(b, t.pair.asset) - t.size else 0.0
  }

  /** The order is for two coins, of a positive size and at a price that is not negative, and whoever sells has no
      debt in the quote coin. */
  predicate Sensible(b: Book, t: Terms) {
    && t.pair.asset != t.pair.quote && t.size > 0.0 && t.price >= 0.0
    && (t.side == Sell ==> Free(b, t.pair.quote) >= 0.0)
  }

  lemma PendingQuote(b: Book, t: Terms)
    requires Sensible(b, t) && !t.fill
    ensures Free(Funded(b, t), t.pair.quote) == Free(b, t.pair.quote) + Liquidated(b, t) - Worth(Bought(b, t), t.price)
  {
    hide Worth, ShortValue;
  }

  /** What closing the short brings in that the order buys back. */
  function Liquidated(b: Book, t: Terms): real { if t.side == Buy then Liquid(b, t.pair, t.price) else 0.0 }

  /** The part of the order that the quote coin has to pay for. */
  function Bought(b: Book, t: Terms): real {
    var f := Free(b, t.pair.asset);
    if t.side == Sell then t.size - MinReal(MaxReal(f, 0.0), t.size) else t.size - MinReal(MaxReal(-f, 0.0), t.size)
  }

  lemma MarketQuote(b: Book, t: Terms)
    requires Sensible(b, t) && t.fill
    ensures Free(Funded(b, t), t.pair.quote)
         == Free(b, t.pair.quote) + Liquidated(b, t) - Worth(Bought(b, t), t.price)
            + if t.side == Sell && t.size <= Free(b, t.pair.asset) then Worth(t.size, t.price) else 0.0
  {
    hide Worth, ShortValue, FillMarketBuy, FillMarketSell;
    var touched := Touch(b, t.pair);
    WorthOfFree(t.size);
    WorthOfFree(MaxReal(Free(b, t.pair.asset), 0.0));
    WorthOfFree(Bought(b, t));
    if t.side == Buy {
      BuyEffect(touched, t.pair, t.size, t.price);
    } else if t.price > 0.0 || t.size <= Free(b, t.pair.asset) {
      SellEffect(touched, t.pair, t.size, t.price);
    } else {
      UnpricedSellEffect(touched, t.pair, t.size, t.price);
    }
    WorthOfNone(t.price);
  }

  lemma WorthOfFree(q: real)
    ensures Worth(q, 0.0) == 0.0
  {
  }

  lemma WorthOfNone(price: real)
    ensures Worth(0.0, price) == 0.0
  {
  }

  /** An order is refused only if carrying it out would overdraw the quote coin: it is accepted exactly when the coin
      is not negative afterwards. An order that covers a part of a short is accepted exactly when the coin does not
      fall below minus what the rest of the short costs. */
  lemma AcceptedIff(b: Book, t: Terms)
    requires Sensible(b, t)
    ensures Accepts(b, t.side, t.pair, t.size, t.price)
      <==> Free(Funded(b, t), t.pair.quote) >= -Worth(RestOfShort(b, t), t.price)
  {
    hide Funded, Accepts, Worth, Free, Liquidated, Bought, RestOfShort;
    if t.fill { MarketQuote(b, t); } else { PendingQuote(b, t); }
    AcceptedBy(b, t);
    WorthOfRest(t.size, 0.0, t.price);
    WorthOfNone(t.price);
  }

  /** The wallet's test, told by what the quote coin has to pay for. */
  lemma AcceptedBy(b: Book, t: Terms)
    requires Sensible(b, t)
    ensures var left := Free(b, t.pair.quote) + Liquidated(b, t) - Worth(Bought(b, t), t.price);
      && (Accepts(b, t.side, t.pair, t.size, t.price) <==> left >= -Worth(RestOfShort(b, t), t.price))
      && (t.side == Sell && t.size <= Free(b, t.pair.asset) ==> left >= 0.0 && RestOfShort(b, t) == 0.0)
  {
    hide Worth, ShortValue;
    var f := Free(b, t.pair.asset);
    WorthOfNone(t.price);
    WorthOfRest(t.size, MaxReal(f, 0.0), t.price);
    WorthOfRest(t.size, -f, t.price);
    assert t.size + f == t.size - -f;
  }

  lemma WorthOfRest(x: real, y: real, price: real)
    requires price >= 0.0
    ensures Worth(x - y, price) == Worth(x, price) - Worth(y, price) && Worth(y - x, price) == -Worth(x - y, price)
    ensures x >= 0.0 ==> Worth(x, price) >= 0.0
    ensures if x >= y then Worth(x - y, price) >= 0.0 else Worth(y - x, price) >= 0.0
  {
  }

  /** What is freely owned can always be sold, and what is paid for can always be bought. */
  lemma WithinMeans(b: Book, t: Terms)
    requires Sensible(b, t)
    ensures t.side == Sell && t.size <= Free(b, t.pair.asset) ==> Accepts(b, t.side, t.pair, t.size, t.price)
    ensures t.side == Buy && Free(b, t.pair.asset) >= 0.0 ==>
      (Accepts(b, t.side, t.pair, t.size, t.price) <==> Worth(t.size, t.price) <= Free(b, t.pair.quote))
  {
    hide Worth, ShortValue;
    WorthOfRest(Free(b, t.pair.asset), t.size, t.price);
  }

  /** A request adds its orders to the book exactly if it does not overdraw: two for a group, one otherwise. */
  lemma PlacedIff(b: Book, cmd: Command)
    requires Places(cmd) && Sensible(b, TermsOf(b, cmd))
    ensures var t, r := TermsOf(b, cmd), Step(b, cmd);
      |r.orders| - |b.orders| == if Free(Funded(b, t), t.pair.quote) < -Worth(RestOfShort(b, t), t.price) then 0
                                 else if cmd.OcoOrder? then 2 else 1
  {
    hide Funded, Accepts, Fund, Worth, RestOfShort;
    AcceptedIff(b, TermsOf(b, cmd));
  }

  // ----- what a pending order ties up -----

  function Owned(b: Book, coin: string): real { Free(b, coin) + Lock(b, coin) }

  /** A pending order locks of its asset what is there for it, the free amount for a sell and the short for a buy, and
      of the quote coin what the rest is worth, less what closing the short brings in. Averages and candles stay. */
  lemma PendingLocks(b: Book, t: Terms)
    requires Sensible(b, t) && !t.fill
    ensures var r := Funded(b, t);
      && Lock(r, t.pair.asset) == Lock(b, t.pair.asset) + t.size - Bought(b, t)
      && Lock(r, t.pair.quote) == Lock(b, t.pair.quote) + Worth(Bought(b, t), t.price) - Liquidated(b, t)
      && r.avgLong == b.avgLong && r.avgShort == b.avgShort && r.last == b.last
      && b.assets.Keys <= r.assets.Keys
  {
    hide Worth, ShortValue;
  }

  /** It leaves what is owned of every coin as it was, but a buy that covers a short counts the covered part twice. */
  lemma PendingOwns(b: Book, t: Terms, coin: string)
    requires Sensible(b, t) && !t.fill
    ensures Owned(Funded(b, t), coin)
         == Owned(b, coin) + if t.side == Buy && coin == t.pair.asset then 2.0 * (t.size - Bought(b, t)) else 0.0
  {
    hide Worth, ShortValue;
  }

  /** Cancelling any order, pending or not, leaves what is owned of every coin, the averages and the candles. */
  lemma CancelOwns(b: Book, i: nat, coin: string)
    requires i < |b.orders|
    ensures var r := CancelOrder(b, i);
      && Owned(r, coin) == Owned(b, coin)
      && r.avgLong == b.avgLong && r.avgShort == b.avgShort && r.last == b.last
  {
    hide Worth;
  }

  // ----- what a market order does to the averages -----

  /** A market buy enters the long average at its weight; one that buys back a short sets it to its price if it covers
      more than half of the short. The short average stays. */
  lemma BuyAverages(b: Book, pair: Pair, amount: real, price: real)
    requires amount > 0.0 && pair.asset != pair.quote
    ensures var r, f := FillMarketBuy(b, pair, amount, price), Free(b, pair.asset);
      var before, after := Lookup(b.avgLong, pair), Lookup(r.avgLong, pair);
      && r.avgShort == b.avgShort
      && if f >= 0.0 then Worth(f + amount, after) == Worth(f, before) + Worth(amount, price)
         else after == if 2.0 * amount > -f then price else before
  {
    hide Worth, ShortValue, Blend;
    var f := Free(b, pair.asset);
    FlatBlend(f + MinReal(-f, amount), Lookup(b.avgLong, pair), amount, price);
    if f >= 0.0 { BlendKeepsCost(f, Lookup(b.avgLong, pair), amount, price); }
  }

  /** A market sell enters the short average at its weight; one that reduces a long sets it to its price if it sells
      more than half of it, and so does one that crosses. The long average stays. */
  lemma SellAverages(b: Book, pair: Pair, amount: real, price: real)
    requires amount > 0.0 && price > 0.0 && pair.asset != pair.quote
    ensures var r, f := FillMarketSell(b, pair, amount, price), Free(b, pair.asset);
      var before, after := Lookup(b.avgShort, pair), Lookup(r.avgShort, pair);
      && r.avgLong == b.avgLong
      && if f <= 0.0 then Worth(amount - f, after) == Worth(-f, before) + Worth(amount, price)
         else after == if 2.0 * amount > f then price else before
  {
    hide Worth, ShortValue, Blend;
    var f := Free(b, pair.asset);
    FlatBlend(-(f - MinReal(f, amount)), Lookup(b.avgShort, pair), amount, price);
    if f <= 0.0 { BlendKeepsCost(-f, Lookup(b.avgShort, pair), amount, price); }
  }

  lemma FlatBlend(held: real, avg: real, amount: real, price: real)
    requires held <= 0.0
    ensures Blend(held, avg, amount, price) == price
  {
  }

  // ----- round trips -----

  /** A long that is bought and sold again at other prices gains the difference; so does a short that is sold and bought
      back, in the other direction. Either way the asset is flat again. */
  lemma RoundTrips(b: Book, pair: Pair, amount: real, sold: real, bought: real)
    requires amount > 0.0 && sold > 0.0 && bought > 0.0 && pair.asset != pair.quote && Free(b, pair.asset) == 0.0
    ensures var long := FillMarketSell(FillMarketBuy(b, pair, amount, bought), pair, amount, sold);
      && Free(long, pair.asset) == 0.0
      && Free(long, pair.quote) == Free(b, pair.quote) + Worth(amount, sold - bought)
    ensures var short := FillMarketBuy(FillMarketSell(b, pair, amount, sold), pair, amount, bought);
      && Free(short, pair.asset) == 0.0
      && Free(short, pair.quote) == Free(b, pair.quote) + Worth(amount, sold - bought)
  {
    hide FillMarketBuy, FillMarketSell, Blend, Worth;
    var long, short := FillMarketBuy(b, pair, amount, bought), FillMarketSell(b, pair, amount, sold);
    BuyEffect(b, pair, amount, bought);
    SellEffect(long, pair, amount, sold);
    SellEffect(b, pair, amount, sold);
    FlatBlend(0.0, Lookup(b.avgShort, pair), amount, sold);
    BuyEffect(short, pair, amount, bought);
    GainOf(amount, sold, bought);
  }

  lemma GainOf(amount: real, sold: real, bought: real)
    ensures Worth(amount, sold - bought) == Worth(amount, sold) - Worth(amount, bought)
    ensures Worth(amount - amount, bought) == 0.0 && Worth(amount - 0.0, sold) == Worth(amount, sold)
  {
  }
}
