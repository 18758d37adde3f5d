/** Entities shared by every component: sides, orders, candles and a few generic helpers.
    Amounts and prices are exact reals; times are integers. */
module Types {

  datatype Option<+T> = None | Some(value: T)

  datatype Side = Buy | Sell

  datatype OrderType = Limit | Market | LimitMaker | StopLoss | StopLossLimit | TakeProfit | TakeProfitLimit

  datatype Status = New | PartiallyFilled | Filled | Canceled | PendingCancel | Rejected | Expired

  /** A trading pair, already split into its asset and its quote coin. */
  datatype Pair = Pair(asset: string, quote: string)

  datatype Order = Order(
    id: int,
    exchangeId: int,
    pair: Pair,
    side: Side,
    typ: OrderType,
    status: Status,
    price: real,
    quantity: real,
    createdAt: int,
    updatedAt: int,
    stop: Option<real>,
    group: Option<int>)

  datatype Candle = Candle(
    pair: Pair,
    time: int,
    updatedAt: int,
    open: real,
    close: real,
    low: real,
    high: real,
    volume: real,
    complete: bool)

  /** The zero time, which a missing map entry or struct field holds. */
  const ZERO_TIME := 0

  function MinReal(x: real, y: real): real { if x <= y then x else y }

  function MaxReal(x: real, y: real): real { if x >= y then x else y }

  /** What a quantity costs at a price. */
  function Worth(quantity: real, price: real): real { quantity * price }

  lemma PositiveWorth(quantity: real, price: real)
    requires price > 0.0
    ensures Worth(quantity, price) > 0.0 <==> quantity > 0.0
    ensures Worth(-quantity, price) == -Worth(quantity, price)
  {
  }

  /** Reading a map of numbers yields zero for a missing key. */
  function Lookup<K>(m: map<K, real>, k: K): real { if k in m then m[k] else 0.0 }

  predicate StrictlyIncreasing(s: seq<int>) {
    forall i, j :: 0 <= i < j < |s| ==> s[i] < s[j]
  }
}
