/** Facts about sequences sorted by an asymmetric order. */
module Sorting {
  predicate StrictlySorted<T(!new)>(s: seq<T>, less: (T, T) -> bool) {
    forall i, j :: 0 <= i < j < |s| ==> less(s[i], s[j])
  }

  /** In order, ties in any order. */
  ghost predicate InOrder<T(!new)>(s: seq<T>, less: (T, T) -> bool) {
    forall i, j :: 0 <= i < j < |s| ==> !less(s[j], s[i])
  }

  ghost predicate Asymmetric<T(!new)>(less: (T, T) -> bool) { forall x, y :: !(less(x, y) && less(y, x)) }

  lemma SameElements<T>(a: seq<T>, b: seq<T>, i: nat) returns (j: nat)
    requires multiset(a) == multiset(b) && i < |a|
    ensures j < |b| && b[j] == a[i]
  {
    assert a[i] in multiset(a);
    assert a[i] in multiset(b);
    j :| 0 <= j < |b| && b[j] == a[i];
  }

  lemma DropLast<T>(a: seq<T>)
    requires a != []
    ensures multiset(a[..|a|-1]) == multiset(a) - multiset{a[|a|-1]}
  {
    assert a == a[..|a|-1] + [a[|a|-1]];
  }

  lemma RemoveAt<T>(a: seq<T>, j: nat)
    requires j < |a|
    ensures multiset(a[..j] + a[j+1..]) == multiset(a) - multiset{a[j]}
  {
    assert a == a[..j] + [a[j]] + a[j+1..];
  }

  lemma LastAgrees<T(!new)>(a: seq<T>, b: seq<T>, less: (T, T) -> bool)
    requires InOrder(a, less) && StrictlySorted(b, less)
    requires multiset(a) == multiset(b) && |a| == |b| > 0
    ensures a[|a|-1] == b[|b|-1]
  {
    var n := |a| - 1;
    var i := SameElements(a, b, n);
    var j := SameElements(b, a, n);
  }

  lemma PrefixesInOrder<T(!new)>(a: seq<T>, b: seq<T>, n: nat, less: (T, T) -> bool)
    requires n <= |a| && n <= |b|
    ensures InOrder(a, less) ==> InOrder(a[..n], less)
    ensures StrictlySorted(b, less) ==> StrictlySorted(b[..n], less)
  {
  }

  /** A strictly sorted sequence is the only way to put its elements in order. */
  lemma {:induction false} SortedIsUnique<T(!new)>(a: seq<T>, b: seq<T>, less: (T, T) -> bool)
    requires InOrder(a, less) && StrictlySorted(b, less)
    requires multiset(a) == multiset(b)
    ensures a == b
  {
    assert |a| == |multiset(a)| == |multiset(b)| == |b|;
    if a != [] {
      var n := |a| - 1;
      LastAgrees(a, b, less);
      DropLast(a);
      DropLast(b);
      PrefixesInOrder(a, b, n, less);
      hide InOrder, StrictlySorted;
      SortedIsUnique(a[..n], b[..n], less);
      assert a == a[..n] + [a[n]] && b == b[..n] + [b[n]];
    }
  }

  lemma StrictIsInOrder<T(!new)>(s: seq<T>, less: (T, T) -> bool)
    requires Asymmetric(less) && StrictlySorted(s, less)
    ensures InOrder(s, less)
  {
  }
}
