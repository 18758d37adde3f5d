/** Multiples of a positive period. */
module Multiples {
  predicate Multiple(x: int, p: int) { p > 0 && x % p == 0 }

  lemma Scaled(p: int, k: int)
    requires p > 0
    ensures p * k > 0 <==> k > 0
    ensures k >= 1 ==> p * k >= p
  {
  }

  lemma Div(x: int, p: int)
    requires p > 0 && x % p == 0
    ensures x == p * (x / p)
  {
  }

  /** Two different multiples are at least a period apart. */
  lemma Apart(x: int, y: int, p: int)
    requires p > 0 && x % p == 0 && y % p == 0 && x < y
    ensures y - x >= p
  {
    Div(x, p);
    Div(y, p);
    var k := y / p - x / p;
    assert y - x == p * k;
    Scaled(p, k);
  }

  lemma NextMultiple(x: int, p: int)
    requires p > 0 && x % p == 0
    ensures (x + p) % p == 0
  {
    var y := x + p;
    var k := x / p + 1 - y / p;
    assert y % p == p * k by {
      Div(x, p);
      assert y == p * (y / p) + y % p;
      assert p * (x / p + 1) == x + p;
    }
    Scaled(p, k);
  }

  lemma Fewer(n: int, q: int, step: int)
    requires step > 0 && n * step >= q * step
    ensures n >= q
  {
    Scaled(step, q - n);
  }
}
