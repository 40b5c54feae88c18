/**
 * Python's `list.sort(key=...)`: a stable sort by a key. It is modelled as an
 * insertion sort, both as a function on sequences (`SortBy`) and as the
 * in-place method on an array (`SortInPlace`) that is proved to compute it.
 */
module Sorting {

  /** `less` orders keys strictly and totally, as `<` does on `str` and `float` keys. */
  ghost predicate StrictTotalOrder<K(!new)>(less: (K, K) -> bool) {
    && (forall x :: !less(x, x))
    && (forall x, y, z :: less(x, y) && less(y, z) ==> less(x, z))
    && (forall x, y :: x != y ==> less(x, y) || less(y, x))
  }

  /** No element's key is smaller than the key of an element before it. */
  ghost predicate SortedBy<T, K>(s: seq<T>, key: T -> K, less: (K, K) -> bool) {
    forall i, j :: 0 <= i < j < |s| ==> !less(key(s[j]), key(s[i]))
  }

  /** The elements of `s` whose key is `k`, in their order in `s`. */
  function Filter<T, K(==)>(s: seq<T>, key: T -> K, k: K): seq<T> {
    if s == [] then [] else (if key(s[0]) == k then [s[0]] else []) + Filter(s[1..], key, k)
  }

  /** Places `x` after every element of `s` whose key is not larger than its own. */
  function Insert<T, K>(x: T, s: seq<T>, key: T -> K, less: (K, K) -> bool): seq<T> {
    if s == [] || less(key(x), key(s[0])) then [x] + s
    else [s[0]] + Insert(x, s[1..], key, less)
  }

  /** Insertion sort: sort all but the last element, then insert the last one. */
  function SortBy<T, K>(s: seq<T>, key: T -> K, less: (K, K) -> bool): seq<T> {
    if s == [] then [] else Insert(s[|s| - 1], SortBy(s[..|s| - 1], key, less), key, less)
  }

  lemma {:induction false} FilterConcat<T, K>(a: seq<T>, b: seq<T>, key: T -> K, k: K)
    ensures Filter(a + b, key, k) == Filter(a, key, k) + Filter(b, key, k)
  {
    if a == [] {
      assert a + b == b;
    } else {
      var head := if key(a[0]) == k then [a[0]] else [];
      assert (a + b)[0] == a[0];
      assert (a + b)[1..] == a[1..] + b;
      assert Filter(a + b, key, k) == head + Filter(a[1..] + b, key, k);
      FilterConcat(a[1..], b, key, k);
      assert Filter(a, key, k) == head + Filter(a[1..], key, k);
      assert head + (Filter(a[1..], key, k) + Filter(b, key, k)) == (head + Filter(a[1..], key, k)) + Filter(b, key, k);
    }
  }

  lemma {:induction false} FilterNone<T, K>(s: seq<T>, key: T -> K, k: K)
    requires forall i :: 0 <= i < |s| ==> key(s[i]) != k
    ensures Filter(s, key, k) == []
  {
    if s != [] {
      FilterNone(s[1..], key, k);
    }
  }

  lemma {:induction false} InsertPermutes<T, K>(x: T, s: seq<T>, key: T -> K, less: (K, K) -> bool)
    ensures multiset(Insert(x, s, key, less)) == multiset(s) + multiset{x}
  {
    if s == [] || less(key(x), key(s[0])) {
    } else {
      InsertPermutes(x, s[1..], key, less);
      assert s == [s[0]] + s[1..];
    }
  }

  /** Every key of `Insert(x, s)` is at least `lo` when `x`'s key and all keys of `s` are. */
  lemma {:induction false} InsertAbove<T, K>(x: T, s: seq<T>, key: T -> K, less: (K, K) -> bool, lo: K)
    requires !less(key(x), lo)
    requires forall t :: 0 <= t < |s| ==> !less(key(s[t]), lo)
    ensures forall t :: 0 <= t < |Insert(x, s, key, less)| ==> !less(key(Insert(x, s, key, less)[t]), lo)
  {
    if s != [] && !less(key(x), key(s[0])) {
      InsertAbove(x, s[1..], key, less, lo);
      var r := Insert(x, s, key, less);
      assert r == [s[0]] + Insert(x, s[1..], key, less);
      forall t | 0 < t < |r| ensures !less(key(r[t]), lo) {
        assert r[t] == Insert(x, s[1..], key, less)[t - 1];
      }
    }
  }

  lemma {:induction false} InsertSorted<T, K(!new)>(x: T, s: seq<T>, key: T -> K, less: (K, K) -> bool)
    requires StrictTotalOrder(less)
    requires SortedBy(s, key, less)
    ensures SortedBy(Insert(x, s, key, less), key, less)
  {
    var r := Insert(x, s, key, less);
    if s == [] || less(key(x), key(s[0])) {
      forall i, j | 0 <= i < j < |r| ensures !less(key(r[j]), key(r[i])) {
        assert r[j] == s[j - 1];
        if i > 0 {
          assert r[i] == s[i - 1];
        } else {
          assert !less(key(s[j - 1]), key(s[0]));
        }
      }
    } else {
      var tail := Insert(x, s[1..], key, less);
      InsertSorted(x, s[1..], key, less);
      assert !less(key(x), key(s[0]));
      assert forall t :: 0 <= t < |s[1..]| ==> !less(key(s[1..][t]), key(s[0]));
      InsertAbove(x, s[1..], key, less, key(s[0]));
      assert r == [s[0]] + tail;
      forall i, j | 0 <= i < j < |r| ensures !less(key(r[j]), key(r[i])) {
        assert r[j] == tail[j - 1];
        if i > 0 {
          assert r[i] == tail[i - 1];
        }
      }
    }
  }

  lemma {:induction false} InsertFilter<T, K(!new)>(x: T, s: seq<T>, key: T -> K, less: (K, K) -> bool, k: K)
    requires StrictTotalOrder(less)
    requires SortedBy(s, key, less)
    ensures Filter(Insert(x, s, key, less), key, k)
         == Filter(s, key, k) + (if key(x) == k then [x] else [])
  {
    if s == [] || less(key(x), key(s[0])) {
      var r := [x] + s;
      assert r[0] == x && r[1..] == s;
      if key(x) == k {
        forall i | 0 <= i < |s| ensures key(s[i]) != k {
          assert !less(key(s[i]), key(s[0])) by {
            if i > 0 {
              assert SortedBy(s, key, less);
            }
          }
          assert key(s[i]) == key(s[0]) || less(key(s[0]), key(s[i]));
        }
        FilterNone(s, key, k);
      }
    } else {
      var r := [s[0]] + Insert(x, s[1..], key, less);
      assert r[0] == s[0] && r[1..] == Insert(x, s[1..], key, less);
      InsertFilter(x, s[1..], key, less, k);
    }
  }

  lemma {:induction false} SortByPermutes<T, K>(s: seq<T>, key: T -> K, less: (K, K) -> bool)
    ensures multiset(SortBy(s, key, less)) == multiset(s)
    ensures |SortBy(s, key, less)| == |s|
  {
    if s != [] {
      var init, last := s[..|s| - 1], s[|s| - 1];
      SortByPermutes(init, key, less);
      InsertPermutes(last, SortBy(init, key, less), key, less);
      assert s == init + [last];
    }
  }

  /** The result is in key order. */
  lemma {:induction false} SortBySorted<T, K(!new)>(s: seq<T>, key: T -> K, less: (K, K) -> bool)
    requires StrictTotalOrder(less)
    ensures SortedBy(SortBy(s, key, less), key, less)
  {
    if s != [] {
      SortBySorted(s[..|s| - 1], key, less);
      InsertSorted(s[|s| - 1], SortBy(s[..|s| - 1], key, less), key, less);
    }
  }

  /** Stability: the elements sharing one key keep their order from the input. */
  lemma {:induction false} SortByStable<T, K(!new)>(s: seq<T>, key: T -> K, less: (K, K) -> bool, k: K)
    requires StrictTotalOrder(less)
    ensures Filter(SortBy(s, key, less), key, k) == Filter(s, key, k)
  {
    if s != [] {
      var init, last := s[..|s| - 1], s[|s| - 1];
      SortByStable(init, key, less, k);
      SortBySorted(init, key, less);
      InsertFilter(last, SortBy(init, key, less), key, less, k);
      assert s == init + [last];
      FilterConcat(init, [last], key, k);
      assert [last][1..] == [];
    }
  }

  /** `Insert` puts `x` at the first place `j` whose suffix holds only larger keys. */
  lemma {:induction false} InsertAt<T, K(!new)>(x: T, s: seq<T>, j: nat, key: T -> K, less: (K, K) -> bool)
    requires StrictTotalOrder(less)
    requires SortedBy(s, key, less)
    requires j <= |s|
    requires j == 0 || !less(key(x), key(s[j - 1]))
    requires forall t :: j <= t < |s| ==> less(key(x), key(s[t]))
    ensures Insert(x, s, key, less) == s[..j] + [x] + s[j..]
  {
    if j == 0 {
      assert s[..0] == [] && s[0..] == s;
    } else {
      assert !less(key(x), key(s[0])) by {
        if j - 1 > 0 {
          assert !less(key(s[j - 1]), key(s[0]));
        }
        var kj, k0 := key(s[j - 1]), key(s[0]);
        assert kj == k0 || less(k0, kj) || less(kj, k0);
      }
      InsertAt(x, s[1..], j - 1, key, less);
      assert s[..j] == [s[0]] + s[1..][..j - 1];
      assert s[j..] == s[1..][j - 1..];
    }
  }

  /**
   * The inner loop of one insertion step: moves the elements of `a[..i]`
   * whose key is larger than `x`'s one place right, and returns the gap.
   */
  method ShiftLarger<T, K>(a: array<T>, i: nat, x: T, key: T -> K, less: (K, K) -> bool) returns (j: nat)
    requires i < a.Length
    modifies a
    ensures j <= i
    ensures a[..j] == old(a[..i])[..j] && a[j + 1..i + 1] == old(a[..i])[j..] && a[i + 1..] == old(a[i + 1..])
    ensures j == 0 || !less(key(x), key(old(a[..i])[j - 1]))
    ensures forall t :: j <= t < i ==> less(key(x), key(old(a[..i])[t]))
  {
    ghost var s := a[..i];
    j := i;
    while j > 0 && less(key(x), key(a[j - 1]))
      invariant 0 <= j <= i
      invariant a[..j] == s[..j]
      invariant a[j + 1..i + 1] == s[j..]
      invariant forall t :: j <= t < i ==> less(key(x), key(s[t]))
      invariant a[i + 1..] == old(a[i + 1..])
    {
      a[j] := a[j - 1];
      j := j - 1;
    }
  }

  /**
   * One step of the insertion sort: `a[..i]` is sorted, and `a[i]` is moved
   * left past every element with a larger key.
   */
  method InsertLast<T, K(!new)>(a: array<T>, i: nat, key: T -> K, less: (K, K) -> bool)
    requires StrictTotalOrder(less)
    requires i < a.Length
    requires SortedBy(a[..i], key, less)
    modifies a
    ensures a[..i + 1] == Insert(old(a[i]), old(a[..i]), key, less)
    ensures a[i + 1..] == old(a[i + 1..])
  {
    var x := a[i];
    ghost var s := a[..i];
    var j := ShiftLarger(a, i, x, key, less);
    ghost var shifted := a[..];
    a[j] := x;
    assert a[..j] == shifted[..j] && a[j + 1..] == shifted[j + 1..];
    assert a[..i + 1] == a[..j] + [x] + a[j + 1..i + 1];
    InsertAt(x, s, j, key, less);
  }

  /** `list.sort(key=key)` on an array: afterwards the array holds `SortBy` of its old contents. */
  method SortInPlace<T, K(!new)>(a: array<T>, key: T -> K, less: (K, K) -> bool)
    requires StrictTotalOrder(less)
    modifies a
    ensures a[..] == SortBy(old(a[..]), key, less)
  {
    ghost var s := a[..];
    var i := 0;
    while i < a.Length
      invariant 0 <= i <= a.Length
      invariant a[..i] == SortBy(s[..i], key, less)
      invariant a[i..] == s[i..]
    {
      SortBySorted(s[..i], key, less);
      assert a[i] == s[i] && a[i + 1..] == s[i + 1..];
      InsertLast(a, i, key, less);
      assert s[..i + 1][..i] == s[..i] && s[..i + 1][i] == s[i];
      i := i + 1;
    }
    assert s[..a.Length] == s;
  }

  /** `[f(x) for x in s]`. */
  function Project<T, U>(s: seq<T>, f: T -> U): (r: seq<U>)
    ensures |r| == |s|
    ensures forall i :: 0 <= i < |s| ==> r[i] == f(s[i])
  {
    seq(|s|, i requires 0 <= i < |s| => f(s[i]))
  }

  lemma {:induction false} InsertPermutesProjection<T, K, U>(x: T, s: seq<T>, key: T -> K, less: (K, K) -> bool, f: T -> U)
    ensures multiset(Project(Insert(x, s, key, less), f)) == multiset(Project(s, f)) + multiset{f(x)}
  {
    var r := Insert(x, s, key, less);
    if s == [] || less(key(x), key(s[0])) {
      assert Project(r, f) == [f(x)] + Project(s, f);
    } else {
      InsertPermutesProjection(x, s[1..], key, less, f);
      assert Project(r, f) == [f(s[0])] + Project(Insert(x, s[1..], key, less), f);
      assert Project(s, f) == [f(s[0])] + Project(s[1..], f);
    }
  }

  /** Sorting permutes any projection of the elements as well. */
  lemma {:induction false} SortByPermutesProjection<T, K, U>(s: seq<T>, key: T -> K, less: (K, K) -> bool, f: T -> U)
    ensures multiset(Project(SortBy(s, key, less), f)) == multiset(Project(s, f))
  {
    if s != [] {
      var init, last := s[..|s| - 1], s[|s| - 1];
      SortByPermutesProjection(init, key, less, f);
      InsertPermutesProjection(last, SortBy(init, key, less), key, less, f);
      assert Project(s, f) == Project(init, f) + [f(last)];
    }
  }
}
