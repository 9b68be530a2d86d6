/** Python list operations used by the configuration logic, with their specifications. */
module Lists {

  /** No element occurs twice. */
  predicate NoDuplicates<T(==)>(xs: seq<T>)
  {
    forall i, j :: 0 <= i < j < |xs| ==> xs[i] != xs[j]
  }

  /** A list with a new head has no duplicates exactly when its tail has none. */
  lemma NoDuplicatesCons<T>(x: T, xs: seq<T>)
    requires x !in xs && NoDuplicates(xs)
    ensures NoDuplicates([x] + xs)
  {
    var ys := [x] + xs;
    forall i, j | 0 <= i < j < |ys|
      ensures ys[i] != ys[j]
    {
      assert ys[j] == xs[j - 1];
      if i > 0 {
        assert ys[i] == xs[i - 1];
      }
    }
  }

  /** The elements of `xs` that are not in `drop`, in their original order. */
  function Without<T(==,!new)>(xs: seq<T>, drop: set<T>): (r: seq<T>)
    ensures forall x :: x in r <==> x in xs && x !in drop
    ensures |r| <= |xs|
    decreases |xs|
  {
    if |xs| == 0 then []
    else if xs[0] in drop then Without(xs[1..], drop)
    else [xs[0]] + Without(xs[1..], drop)
  }

  lemma {:induction false} WithoutAppend<T(!new)>(a: seq<T>, b: seq<T>, drop: set<T>)
    ensures Without(a + b, drop) == Without(a, drop) + Without(b, drop)
    decreases |a|
  {
    if |a| == 0 {
      assert a + b == b;
    } else {
      assert (a + b)[1..] == a[1..] + b;
      WithoutAppend(a[1..], b, drop);
    }
  }

  /** Index of the first occurrence of `x` (Python's `list.index`). */
  function FirstIndex<T(==)>(xs: seq<T>, x: T): (i: nat)
    requires x in xs
    ensures i < |xs| && xs[i] == x
    ensures forall j :: 0 <= j < i ==> xs[j] != x
  {
    if xs[0] == x then 0 else 1 + FirstIndex(xs[1..], x)
  }

  /** Python's `list.remove(x)`: deletes the first occurrence; raises when absent. */
  function RemoveFirst<T(==)>(xs: seq<T>, x: T): (r: seq<T>)
    requires x in xs
    ensures |r| == |xs| - 1
    ensures multiset(r) == multiset(xs) - multiset{x}
    ensures r == xs[..FirstIndex(xs, x)] + xs[FirstIndex(xs, x) + 1..]
  {
    var i := FirstIndex(xs, x);
    assert xs == xs[..i] + [x] + xs[i + 1..];
    xs[..i] + xs[i + 1..]
  }

  /** Removing an element of `drop` does not disturb the order of the others. */
  lemma RemoveFirstWithout<T(!new)>(xs: seq<T>, x: T, drop: set<T>)
    requires x in xs && x in drop
    ensures Without(RemoveFirst(xs, x), drop) == Without(xs, drop)
  {
    var i := FirstIndex(xs, x);
    assert xs == xs[..i] + ([x] + xs[i + 1..]);
    WithoutAppend(xs[..i], [x] + xs[i + 1..], drop);
    WithoutAppend(xs[..i], xs[i + 1..], drop);
    assert ([x] + xs[i + 1..])[1..] == xs[i + 1..];
  }

  /** The first `n` elements of `xs`, or all of them when there are fewer (Python's `xs[:n]`, n clamped at 0). */
  function Take<T>(xs: seq<T>, n: int): (r: seq<T>)
    ensures |r| == if n <= 0 then 0 else if n < |xs| then n else |xs|
    ensures r == xs[..|r|]
  {
    if n <= 0 then [] else if n < |xs| then xs[..n] else xs
  }

  lemma TakeCons<T>(x: T, xs: seq<T>, n: int)
    requires n > 0
    ensures Take([x] + xs, n) == [x] + Take(xs, n - 1)
  {
    if n - 1 > 0 && n - 1 < |xs| {
      assert ([x] + xs)[..n] == [x] + xs[..n - 1];
    }
  }

  lemma Reassociate<T>(head: seq<T>, x: seq<T>, y: seq<T>, whole: seq<T>, front: seq<T>)
    requires whole == head + (x + y) && front == head + x
    ensures whole == front + y
  {
  }

  lemma Regroup<T>(a: seq<T>, front: seq<T>, x: T, rest: seq<T>, tail: seq<T>)
    requires a == front + [x] + rest && tail == [x] + rest
    ensures a == front + tail
  {
  }

  /** Number of occurrences of `x` in `xs`. */
  function Count<T(==)>(xs: seq<T>, x: T): nat
  {
    multiset(xs)[x]
  }
}
