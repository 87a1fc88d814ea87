/**
 * The sort the library does for the source (`sort.Slice`, `sort.SliceStable`), as a stable insertion
 * sort, with what its callers rely on: a sorted permutation, unique when the order is total.
 */
module Sorting {

  /** No later element comes before an earlier one. */
  ghost predicate Sorted<T>(less: (T, T) -> bool, s: seq<T>) {
    forall i, j :: 0 <= i < j < |s| ==> !less(s[j], s[i])
  }

  /** `less` is a strict weak order on the elements of `s`. */
  ghost predicate WeakOrder<T(!new)>(less: (T, T) -> bool, s: seq<T>) {
    && (forall x, y :: x in s && y in s && less(x, y) ==> !less(y, x))
    && (forall x, y, z :: x in s && y in s && z in s && less(x, z) ==> less(x, y) || less(y, z))
  }

  /** Distinct elements of `s` are always comparable. */
  ghost predicate Comparable<T(!new)>(less: (T, T) -> bool, s: seq<T>) {
    forall x, y :: x in s && y in s && x != y ==> less(x, y) || less(y, x)
  }

  /** Insert `x` before the first element that does not come before it. */
  function Insert<T>(less: (T, T) -> bool, x: T, s: seq<T>): (r: seq<T>)
    ensures |r| == |s| + 1
    ensures multiset(r) == multiset{x} + multiset(s)
  {
    if s == [] || !less(s[0], x) then
      assert [x] + s == [x] + s;
      [x] + s
    else
      assert s == [s[0]] + s[1..];
      [s[0]] + Insert(less, x, s[1..])
  }

  function Sort<T>(less: (T, T) -> bool, s: seq<T>): (r: seq<T>)
    ensures |r| == |s|
    ensures multiset(r) == multiset(s)
  {
    if s == [] then []
    else
      assert s == [s[0]] + s[1..];
      Insert(less, s[0], Sort(less, s[1..]))
  }

  lemma SameElements<T>(a: seq<T>, b: seq<T>)
    requires multiset(a) == multiset(b)
    ensures forall x :: x in a <==> x in b
  {
    forall x ensures x in a <==> x in b {
      assert x in a <==> x in multiset(a);
      assert x in b <==> x in multiset(b);
    }
  }

  lemma NotLessChain<T(!new)>(less: (T, T) -> bool, s: seq<T>, x: T, y: T, z: T)
    requires WeakOrder(less, s) && x in s && y in s && z in s
    requires (x == y || !less(x, y)) && !less(y, z)
    ensures !less(x, z)
  {
  }

  lemma {:induction false} InsertKeepsSorted<T(!new)>(less: (T, T) -> bool, x: T, s: seq<T>)
    requires Sorted(less, s) && WeakOrder(less, [x] + s)
    ensures Sorted(less, Insert(less, x, s))
  {
    var all := [x] + s;
    assert forall y :: y in s ==> y in all;
    assert x in all;
    if s == [] {
    } else if !less(s[0], x) {
      forall j | 0 <= j < |s| ensures !less(s[j], x) {
        assert s[j] in all && s[0] in all;
        NotLessChain(less, all, s[j], s[0], x);
      }
    } else {
      var rest := s[1..];
      assert forall y :: y in [x] + rest ==> y in all;
      InsertKeepsSorted(less, x, rest);
      var r := Insert(less, x, rest);
      assert multiset(r) == multiset([x] + rest);
      SameElements(r, [x] + rest);
      forall j | 0 <= j < |r| ensures !less(r[j], s[0]) {
        assert r[j] in r;
        if r[j] == x {
          assert s[0] in s;
        } else {
          assert r[j] in rest;
          var k :| 0 <= k < |rest| && rest[k] == r[j];
          assert s[k + 1] == r[j];
        }
      }
    }
  }

  lemma {:induction false} SortIsSorted<T(!new)>(less: (T, T) -> bool, s: seq<T>)
    requires WeakOrder(less, s)
    ensures Sorted(less, Sort(less, s))
  {
    if s != [] {
      assert forall y :: y in s[1..] ==> y in s;
      SortIsSorted(less, s[1..]);
      var t := Sort(less, s[1..]);
      SameElements(t, s[1..]);
      assert forall y :: y in [s[0]] + t ==> y in s;
      InsertKeepsSorted(less, s[0], t);
    }
  }

  lemma HeadIsLeast<T(!new)>(less: (T, T) -> bool, s: seq<T>, y: T)
    requires Sorted(less, s) && y in s
    ensures y == s[0] || !less(y, s[0])
  {
    var i :| 0 <= i < |s| && s[i] == y;
  }

  lemma TailElements<T>(s: seq<T>)
    requires s != []
    ensures multiset(s[1..]) == multiset(s) - multiset{s[0]}
  {
    assert s == [s[0]] + s[1..];
  }

  /** Under a total order there is only one sorted arrangement of a collection. */
  lemma {:induction false} SortedIsUnique<T(!new)>(less: (T, T) -> bool, a: seq<T>, b: seq<T>)
    requires multiset(a) == multiset(b)
    requires Sorted(less, a) && Sorted(less, b) && Comparable(less, a)
    ensures a == b
  {
    SameElements(a, b);
    assert |multiset(a)| == |a| && |multiset(b)| == |b|;
    if a != [] {
      HeadIsLeast(less, a, b[0]);
      HeadIsLeast(less, b, a[0]);
      assert a[0] == b[0];
      TailElements(a);
      TailElements(b);
      assert forall y :: y in a[1..] ==> y in a;
      SortedIsUnique(less, a[1..], b[1..]);
      assert a == [a[0]] + a[1..] && b == [b[0]] + b[1..];
    }
  }

  /** Sorting does not depend on the order of the input. */
  lemma SortIgnoresInputOrder<T(!new)>(less: (T, T) -> bool, a: seq<T>, b: seq<T>)
    requires multiset(a) == multiset(b)
    requires WeakOrder(less, a) && Comparable(less, a)
    ensures Sort(less, a) == Sort(less, b)
  {
    SameElements(a, b);
    SortIsSorted(less, a);
    SortIsSorted(less, b);
    SameElements(Sort(less, a), a);
    SortedIsUnique(less, Sort(less, a), Sort(less, b));
  }

  // ----- mapping -----

  function Map<A, B>(f: A -> B, s: seq<A>): (r: seq<B>)
    ensures |r| == |s| && forall i :: 0 <= i < |s| ==> r[i] == f(s[i])
  {
    if s == [] then [] else [f(s[0])] + Map(f, s[1..])
  }

  function Without<T>(s: seq<T>, k: nat): seq<T>
    requires k < |s|
  {
    s[..k] + s[k + 1..]
  }

  lemma WithoutOne<T>(s: seq<T>, k: nat)
    requires k < |s|
    ensures multiset(Without(s, k)) == multiset(s) - multiset{s[k]}
    ensures multiset(s) == multiset(Without(s, k)) + multiset{s[k]}
  {
    assert s == s[..k] + ([s[k]] + s[k + 1..]);
    assert multiset([s[k]] + s[k + 1..]) == multiset{s[k]} + multiset(s[k + 1..]);
  }

  lemma MapWithout<A, B>(f: A -> B, s: seq<A>, k: nat)
    requires k < |s|
    ensures Map(f, Without(s, k)) == Without(Map(f, s), k)
  {
    var r, w := Map(f, s), Without(s, k);
    assert |Map(f, w)| == |w| == |s| - 1;
    forall i | 0 <= i < |w| ensures Map(f, w)[i] == Without(r, k)[i] {
      if i < k {
        assert w[i] == s[i] && Without(r, k)[i] == r[i];
      } else {
        assert w[i] == s[i + 1] && Without(r, k)[i] == r[i + 1];
      }
    }
  }

  /** Mapping a permutation gives a permutation. */
  lemma {:induction false} MapPermute<A, B>(f: A -> B, a: seq<A>, b: seq<A>)
    requires multiset(a) == multiset(b)
    ensures multiset(Map(f, a)) == multiset(Map(f, b))
  {
    assert |multiset(a)| == |a| && |multiset(b)| == |b|;
    if a != [] {
      SameElements(a, b);
      assert a[0] in a;
      var k :| 0 <= k < |b| && b[k] == a[0];
      WithoutOne(a, 0);
      WithoutOne(b, k);
      MapPermute(f, Without(a, 0), Without(b, k));
      MapWithout(f, a, 0);
      MapWithout(f, b, k);
      WithoutOne(Map(f, a), 0);
      WithoutOne(Map(f, b), k);
    }
  }
}
