/** The binary heap that merges candle feeds into one chronological stream. */
module PriorityQueues {
  import opened Types
  import opened Sorting

  /** A strict weak order: asymmetric, and incomparability is transitive. */
  ghost predicate StrictWeak<T(!new)>(less: (T, T) -> bool) {
    && (forall x, y :: less(x, y) ==> !less(y, x))
    && (forall x, y, z :: less(x, z) ==> less(x, y) || less(y, z))
  }

  function Parent(i: int): int { (i - 1) / 2 }

  /** From index k on, no parent comes after its child. */
  ghost predicate HeapFrom<T(!new)>(v: seq<T>, less: (T, T) -> bool, k: int) {
    forall i :: 0 < i < |v| && Parent(i) >= k ==> !less(v[i], v[Parent(i)])
  }

  ghost predicate Heap<T(!new)>(v: seq<T>, less: (T, T) -> bool) { HeapFrom(v, less, 0) }

  lemma {:induction false} RootIsLeast<T(!new)>(v: seq<T>, less: (T, T) -> bool, i: nat)
    requires StrictWeak(less) && Heap(v, less) && i < |v|
    ensures !less(v[i], v[0])
  {
    if i > 0 { RootIsLeast(v, less, Parent(i)); }
  }

  lemma SwapKeepsElements<T>(v: seq<T>, i: nat, j: nat)
    requires i < |v| && j < |v|
    ensures multiset(v[i := v[j]][j := v[i]]) == multiset(v)
  {
  }

  /** Everything above the hole is ordered, and the hole's children are below its parent. */
  ghost predicate HoleDown<T(!new)>(v: seq<T>, less: (T, T) -> bool, k: int, hole: int) {
    && (forall i :: 0 < i < |v| && Parent(i) >= k && Parent(i) != hole ==> !less(v[i], v[Parent(i)]))
    && (forall i :: 0 < i < |v| && Parent(i) == hole && hole > 0 && Parent(hole) >= k ==> !less(v[i], v[Parent(hole)]))
  }

  ghost predicate HoleUp<T(!new)>(v: seq<T>, less: (T, T) -> bool, hole: int) {
    && (forall i :: 0 < i < |v| && i != hole ==> !less(v[i], v[Parent(i)]))
    && (forall i :: 0 < i < |v| && Parent(i) == hole && hole > 0 ==> !less(v[i], v[Parent(hole)]))
  }

  /** Exchanging the hole's element with its smaller child moves the hole down. */
  lemma SiftDownStep<T(!new)>(v: seq<T>, less: (T, T) -> bool, k: int, hole: nat, child: nat)
    requires StrictWeak(less) && HoleDown(v, less, k, hole) && k <= hole < |v|
    requires child < |v| && child > 0 && Parent(child) == hole && less(v[child], v[hole])
    requires forall i :: 0 < i < |v| && Parent(i) == hole ==> !less(v[i], v[child])
    ensures HoleDown(v[hole := v[child]][child := v[hole]], less, k, child)
  {
  }

  /** A hole without children, or whose best child is not smaller, is in its place. */
  lemma HoleSettles<T(!new)>(v: seq<T>, less: (T, T) -> bool, k: int, hole: nat, best: nat)
    requires StrictWeak(less) && HoleDown(v, less, k, hole) && hole < |v|
    requires 2 * hole + 1 < |v| ==> best < |v| && !less(v[best], v[hole])
    requires 2 * hole + 1 < |v| ==> forall i :: 0 < i < |v| && Parent(i) == hole ==> !less(v[i], v[best])
    ensures HeapFrom(v, less, k)
  {
  }

  /** Of the one or two children of a position, `best` is one that no other comes before. */
  lemma BestChild<T(!new)>(v: seq<T>, less: (T, T) -> bool, pos: nat, best: nat)
    requires StrictWeak(less) && 2 * pos + 1 < |v|
    requires best == if 2 * pos + 2 < |v| && less(v[2 * pos + 2], v[2 * pos + 1]) then 2 * pos + 2 else 2 * pos + 1
    ensures 0 < best < |v| && Parent(best) == pos
    ensures forall i :: 0 < i < |v| && Parent(i) == pos ==> !less(v[i], v[best])
  {
    assert forall i :: 0 < i < |v| && Parent(i) == pos ==> i == 2 * pos + 1 || i == 2 * pos + 2;
  }

  /** Moving the last element to the front drops the front element. */
  lemma FrontDropped<T>(v: seq<T>)
    requires |v| > 1
    ensures var n := |v| - 1; multiset(v[0 := v[n]][..n]) + multiset{v[0]} == multiset(v)
  {
    var n := |v| - 1;
    assert v == [v[0]] + v[1..n] + [v[n]];
    assert v[0 := v[n]][..n] == [v[n]] + v[1..n];
  }

  lemma FrontIsLeast<T(!new)>(v: seq<T>, rest: seq<T>, less: (T, T) -> bool)
    requires StrictWeak(less) && Heap(v, less) && v != []
    requires multiset(rest) + multiset{v[0]} == multiset(v)
    ensures forall i :: 0 <= i < |rest| ==> !less(rest[i], v[0])
  {
    forall i | 0 <= i < |rest| ensures !less(rest[i], v[0]) {
      assert rest[i] in multiset(rest) + multiset{v[0]};
      assert rest[i] in multiset(v);
      var j :| 0 <= j < |v| && v[j] == rest[i];
      RootIsLeast(v, less, j);
    }
  }

  lemma SiftUpStep<T(!new)>(v: seq<T>, less: (T, T) -> bool, hole: nat)
    requires StrictWeak(less) && HoleUp(v, less, hole) && 0 < hole < |v| && less(v[hole], v[Parent(hole)])
    ensures HoleUp(v[hole := v[Parent(hole)]][Parent(hole) := v[hole]], less, Parent(hole))
  {
  }

  /** A hole at the root, or whose parent is not greater, is in its place. */
  lemma HoleFits<T(!new)>(v: seq<T>, less: (T, T) -> bool, hole: nat)
    requires HoleUp(v, less, hole) && hole < |v| && (hole > 0 ==> !less(v[hole], v[Parent(hole)]))
    ensures Heap(v, less)
  {
  }

  /** Copying a child into the hole is an exchange in the heap with the item put back. */
  lemma HoleMoves<T>(d: seq<T>, n: nat, v: seq<T>, hole: nat, child: nat, item: T)
    requires hole < n <= |d| && child < n && child != hole && v == d[..n][hole := item]
    ensures var d' := d[hole := d[child]];
      && v[hole := v[child]][child := v[hole]] == d'[..n][child := item]
      && d'[n..] == d[n..]
    ensures multiset(v[hole := v[child]][child := v[hole]]) == multiset(v)
  {
    SwapKeepsElements(v, hole, child);
  }

  method SmallerChild<T(!new)>(d: seq<T>, n: nat, less: (T, T) -> bool, pos: nat) returns (child: nat)
    requires pos < n / 2 && n <= |d|
    ensures child == if 2 * pos + 2 < n && less(d[2 * pos + 2], d[2 * pos + 1]) then 2 * pos + 2 else 2 * pos + 1
  {
    child := 2 * pos + 1;
    var right := child + 1;
    if right < n && less(d[right], d[child]) { child := right; }
  }

  /** Takes the item at pos out of the first n elements and moves smaller children up into the hole
      until the item fits there; v is the heap with the item put back. */
  method SiftHole<T(!new)>(data: seq<T>, n: nat, less: (T, T) -> bool, pos: nat)
    returns (d: seq<T>, hole: nat, ghost v: seq<T>)
    requires StrictWeak(less) && pos < n <= |data| && HeapFrom(data[..n], less, pos + 1)
    ensures |d| == |data| && hole < n && d[n..] == data[n..]
    ensures v == d[..n][hole := data[pos]]
    ensures HeapFrom(v, less, pos) && multiset(v) == multiset(data[..n])
  {
    d, hole := data, pos;
    var halfLength := n / 2;
    var item := d[pos];
    v := d[..n];
    assert HoleDown(v, less, pos, pos);
    hide HoleDown, HeapFrom, StrictWeak, Parent;
    ghost var fit: nat := 0;
    while hole < halfLength
      invariant pos <= hole < n && |d| == |data| && d[n..] == data[n..]
      invariant v == d[..n][hole := item]
      invariant HoleDown(v, less, pos, hole) && multiset(v) == multiset(data[..n])
      decreases n - hole
    {
      var child := SmallerChild(d, n, less, hole);
      BestChild(v, less, hole, child);
      fit := child;
      if !less(d[child], item) { break; }
      SiftDownStep(v, less, pos, hole, child);
      HoleMoves(d, n, v, hole, child, item);
      v := v[hole := v[child]][child := v[hole]];
      d := d[hole := d[child]];
      hole := child;
    }
    HoleSettles(v, less, pos, hole, fit);
  }

  /** Nothing left comes before anything popped. */
  ghost predicate NoneBefore<T(!new)>(left: seq<T>, out: seq<T>, less: (T, T) -> bool) {
    forall i, j :: 0 <= i < |out| && 0 <= j < |left| ==> !less(left[j], out[i])
  }

  /** Popping one more element keeps what was popped in order. */
  lemma NextInOrder<T(!new)>(out: seq<T>, before: seq<T>, left: seq<T>, item: T, less: (T, T) -> bool)
    requires InOrder(out, less) && NoneBefore(before, out, less)
    requires multiset(left) + multiset{item} == multiset(before)
    requires forall j :: 0 <= j < |left| ==> !less(left[j], item)
    ensures InOrder(out + [item], less) && NoneBefore(left, out + [item], less)
  {
    assert item in multiset(before);
    forall i, j | 0 <= i < |out + [item]| && 0 <= j < |left| ensures !less(left[j], (out + [item])[i]) {
      assert left[j] in multiset(left) + multiset{item};
      assert left[j] in multiset(before);
    }
  }

  class PriorityQueue<T(!new)> {
    const less: (T, T) -> bool
    var length: nat
    var data: seq<T>

    ghost predicate Valid()
      reads this
    {
      StrictWeak(less) && length == |data| && Heap(data, less)
    }

    constructor (data: seq<T>, less: (T, T) -> bool)
      requires StrictWeak(less)
      ensures Valid() && this.less == less && multiset(this.data) == multiset(data)
    {
      this.less := less;
      this.data := data;
      length := |data|;
      new;
      if length > 0 {
        var i := length / 2;
        while i >= 0
          invariant -1 <= i <= length / 2 && length == |this.data| && this.less == less
          invariant HeapFrom(this.data, less, i + 1)
          invariant multiset(this.data) == multiset(data)
        {
          assert this.data[..length] == this.data;
          Down(i);
          assert this.data[..length] == this.data;
          i := i - 1;
        }
      }
    }

    /** Sifts the element at pos down to its place among the first `length` elements. */
    method Down(pos: nat)
      requires StrictWeak(less) && pos < length <= |data| && HeapFrom(data[..length], less, pos + 1)
      modifies this`data
      ensures |data| == old(|data|) && data[length..] == old(data[length..])
      ensures multiset(data[..length]) == old(multiset(data[..length]))
      ensures HeapFrom(data[..length], less, pos)
    {
      ghost var tail := data[length..];
      var d, hole, v := SiftHole(data, length, less, pos);
      data := d[hole := data[pos]];
      assert data[..length] == v;
      assert data[length..] == tail;
    }

    method Up(pos: nat)
      requires StrictWeak(less) && pos < length == |data| && HoleUp(data, less, pos)
      modifies this`data
      ensures |data| == old(|data|) && multiset(data) == old(multiset(data)) && Heap(data, less)
    {
      hide HoleUp, StrictWeak;
      var pos' := pos;
      var item := data[pos];
      ghost var v := data;
      while pos' > 0
        invariant 0 <= pos' < length == |data|
        invariant v == data[pos' := item] && HoleUp(v, less, pos') && multiset(v) == old(multiset(data))
      {
        var parent := (pos' - 1) / 2;
        var current := data[parent];
        if !less(item, current) { break; }
        SiftUpStep(v, less, pos');
        SwapKeepsElements(v, pos', parent);
        v := v[pos' := v[parent]][parent := v[pos']];
        data := data[pos' := current];
        pos' := parent;
      }
      data := data[pos' := item];
      assert data == v;
      HoleFits(data, less, pos');
    }

    method Push(item: T)
      requires Valid()
      modifies this
      ensures Valid() && multiset(data) == old(multiset(data)) + multiset{item}
    {
      data := data + [item];
      length := length + 1;
      Up(length - 1);
    }

    /** Removes an element that no other comes before. */
    method Pop() returns (r: Option<T>)
      requires Valid()
      modifies this
      ensures Valid()
      ensures r.None? <==> old(data) == []
      ensures r.None? ==> data == []
      ensures r.Some? ==> multiset(data) + multiset{r.value} == old(multiset(data)) && length == old(length) - 1
      ensures r.Some? ==> forall i :: 0 <= i < |data| ==> !less(data[i], r.value)
    {
      if length == 0 { return None; }
      ghost var v := data;
      var top := data[0];
      length := length - 1;
      ghost var n := length;
      if length > 0 {
        data := data[0 := data[length]];
        FrontDropped(v);
        Down(0);
      } else {
        assert v == [top];
      }
      data := data[..|data| - 1];
      FrontIsLeast(v, data, less);
      r := Some(top);
    }

    method Len() returns (n: nat)
      requires Valid()
      ensures n == |data|
    {
      n := length;
    }

    /** Popping until the queue is empty yields its elements in order. */
    method Drain() returns (out: seq<T>)
      requires Valid()
      modifies this
      ensures Valid() && data == []
      ensures InOrder(out, less) && multiset(out) == old(multiset(data))
    {
      out := [];
      while length > 0
        invariant Valid() && multiset(out) + multiset(data) == old(multiset(data))
        invariant InOrder(out, less) && NoneBefore(data, out, less)
        decreases length
      {
        ghost var v := data;
        var item := Pop();
        NextInOrder(out, v, data, item.value, less);
        out := out + [item.value];
      }
    }
  }
}
