/** The chronological order of candles. */
module Candles {
  import opened Types
  import opened PriorityQueues

  function Symbol(p: Pair): string { p.asset + p.quote }

  /** Lexicographic order. */
  predicate TextLess(a: string, b: string) {
    b != "" && (a == "" || a[0] < b[0] || (a[0] == b[0] && TextLess(a[1..], b[1..])))
  }

  /** By time, then by update time, then by pair. */
  predicate CandleLess(c: Candle, j: Candle) {
    if c.time != j.time then c.time < j.time
    else if c.updatedAt != j.updatedAt then c.updatedAt < j.updatedAt
    else TextLess(Symbol(c.pair), Symbol(j.pair))
  }

  lemma {:induction false} TextLessIsWeak(a: string, b: string, c: string)
    ensures !(TextLess(a, b) && TextLess(b, a))
    ensures TextLess(a, c) ==> TextLess(a, b) || TextLess(b, c)
  {
    if a != "" && b != "" {
      TextLessIsWeak(a[1..], b[1..], if c != "" then c[1..] else c);
    }
  }

  lemma CandleLessIsStrictWeak()
    ensures StrictWeak(CandleLess)
  {
    forall x: Candle, y: Candle ensures CandleLess(x, y) ==> !CandleLess(y, x) {
      TextLessIsWeak(Symbol(x.pair), Symbol(y.pair), "");
    }
    forall x: Candle, y: Candle, z: Candle ensures CandleLess(x, z) ==> CandleLess(x, y) || CandleLess(y, z) {
      TextLessIsWeak(Symbol(x.pair), Symbol(y.pair), Symbol(z.pair));
    }
  }
}
