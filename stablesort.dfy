/**
 * `Array.prototype.sort` with a comparator, as the core uses it: a stable
 * sort by a two-part key, larger keys first. `Sort` is the specification
 * (insertion of each element after everything that ranks at least as high),
 * `SortInPlace` the in-place algorithm proved to compute it.
 */
module StableSort {

  /** A sort key compared lexicographically: a larger `major`, then a larger `minor`, goes first. */
  datatype Key = Key(major: real, minor: real)

  /** `a` may stand before `b`: the comparator does not ask to swap them. */
  predicate AtLeast(a: Key, b: Key) {
    a.major > b.major || (a.major == b.major && a.minor >= b.minor)
  }

  predicate SortedBy<T>(s: seq<T>, key: T -> Key) {
    forall i, j :: 0 <= i < j < |s| ==> AtLeast(key(s[i]), key(s[j]))
  }

  /** `x` inserted into `t` after every element that ranks at least as high as `x`. */
  function Insert<T>(t: seq<T>, x: T, key: T -> Key): (r: seq<T>)
    ensures |r| == |t| + 1
  {
    if t == [] || AtLeast(key(t[|t| - 1]), key(x)) then t + [x]
    else Insert(t[..|t| - 1], x, key) + [t[|t| - 1]]
  }

  /** The stable sort of `s`, larger keys first. */
  function Sort<T>(s: seq<T>, key: T -> Key): (r: seq<T>)
    ensures |r| == |s|
  {
    if s == [] then [] else Insert(Sort(s[..|s| - 1], key), s[|s| - 1], key)
  }

  /** A lower bound on the keys of `t` and of `x` bounds the keys after insertion. */
  lemma {:induction false} InsertAtLeast<T>(t: seq<T>, x: T, key: T -> Key, y: Key)
    requires forall i :: 0 <= i < |t| ==> AtLeast(key(t[i]), y)
    requires AtLeast(key(x), y)
    ensures forall i :: 0 <= i < |Insert(t, x, key)| ==> AtLeast(key(Insert(t, x, key)[i]), y)
  {
    if t != [] && !AtLeast(key(t[|t| - 1]), key(x)) {
      InsertAtLeast(t[..|t| - 1], x, key, y);
    }
  }

  lemma {:induction false} InsertSorted<T>(t: seq<T>, x: T, key: T -> Key)
    requires SortedBy(t, key)
    ensures SortedBy(Insert(t, x, key), key)
    ensures multiset(Insert(t, x, key)) == multiset(t) + multiset{x}
  {
    if t == [] || AtLeast(key(t[|t| - 1]), key(x)) {
    } else {
      var init, last := t[..|t| - 1], t[|t| - 1];
      assert t == init + [last];
      InsertSorted(init, x, key);
      InsertAtLeast(init, x, key, key(last));
    }
  }

  /** The sort orders its output by key. */
  lemma {:induction false} SortSorted<T>(s: seq<T>, key: T -> Key)
    ensures SortedBy(Sort(s, key), key)
  {
    if s != [] {
      SortSorted(s[..|s| - 1], key);
      InsertSorted(Sort(s[..|s| - 1], key), s[|s| - 1], key);
    }
  }

  /** The sort only reorders: its output is a permutation of its input. */
  lemma {:induction false} SortPermutes<T>(s: seq<T>, key: T -> Key)
    ensures multiset(Sort(s, key)) == multiset(s)
  {
    if s != [] {
      var init := s[..|s| - 1];
      SortPermutes(init, key);
      SortSorted(init, key);
      InsertSorted(Sort(init, key), s[|s| - 1], key);
      assert s == init + [s[|s| - 1]];
    }
  }

  /** The elements of `s` whose key is `k`, in the order of `s`. */
  function WithKey<T>(s: seq<T>, key: T -> Key, k: Key): seq<T>
  {
    if s == [] then []
    else WithKey(s[..|s| - 1], key, k) + (if key(s[|s| - 1]) == k then [s[|s| - 1]] else [])
  }

  lemma {:induction false} WithKeyAppend<T>(a: seq<T>, b: seq<T>, key: T -> Key, k: Key)
    ensures WithKey(a + b, key, k) == WithKey(a, key, k) + WithKey(b, key, k)
  {
    if b != [] {
      WithKeyAppend(a, b[..|b| - 1], key, k);
      assert (a + b)[..|a + b| - 1] == a + b[..|b| - 1];
    } else {
      assert a + b == a;
    }
  }

  lemma {:induction false} InsertWithKey<T>(t: seq<T>, x: T, key: T -> Key, k: Key)
    ensures WithKey(Insert(t, x, key), key, k) == WithKey(t, key, k) + (if key(x) == k then [x] else [])
  {
    if t == [] || AtLeast(key(t[|t| - 1]), key(x)) {
      WithKeyAppend(t, [x], key, k);
    } else {
      var init, last := t[..|t| - 1], t[|t| - 1];
      InsertWithKey(init, x, key, k);
      WithKeyAppend(Insert(init, x, key), [last], key, k);
      WithKeyAppend(init, [last], key, k);
      assert t == init + [last];
    }
  }

  /**
   * Stability: among elements with equal keys the sort keeps the input
   * order, so the output is determined by the input alone.
   */
  lemma {:induction false} SortStable<T>(s: seq<T>, key: T -> Key, k: Key)
    ensures WithKey(Sort(s, key), key, k) == WithKey(s, key, k)
  {
    if s != [] {
      var init := s[..|s| - 1];
      SortStable(init, key, k);
      InsertWithKey(Sort(init, key), s[|s| - 1], key, k);
    }
  }

  /** An input already ordered by key is left as it is. */
  lemma {:induction false} SortOfSorted<T>(s: seq<T>, key: T -> Key)
    requires SortedBy(s, key)
    ensures Sort(s, key) == s
  {
    if s != [] {
      var init := s[..|s| - 1];
      SortOfSorted(init, key);
      assert s == init + [s[|s| - 1]];
    }
  }

  /** Keys of the form `f(x)` are pairwise distinct in `s`. */
  ghost predicate DistinctBy<T, U>(s: seq<T>, f: T -> U) {
    forall i, j :: 0 <= i < j < |s| ==> f(s[i]) != f(s[j])
  }

  /** A value that no element of `t` and not `x` maps to is still avoided after insertion. */
  lemma {:induction false} InsertAvoids<T, U>(t: seq<T>, x: T, key: T -> Key, f: T -> U, v: U)
    requires forall i :: 0 <= i < |t| ==> f(t[i]) != v
    requires f(x) != v
    ensures forall i :: 0 <= i < |Insert(t, x, key)| ==> f(Insert(t, x, key)[i]) != v
  {
    if t != [] && !AtLeast(key(t[|t| - 1]), key(x)) {
      InsertAvoids(t[..|t| - 1], x, key, f, v);
    }
  }

  lemma {:induction false} InsertDistinctBy<T, U>(t: seq<T>, x: T, key: T -> Key, f: T -> U)
    requires DistinctBy(t, f)
    requires forall i :: 0 <= i < |t| ==> f(t[i]) != f(x)
    ensures DistinctBy(Insert(t, x, key), f)
  {
    if t != [] && !AtLeast(key(t[|t| - 1]), key(x)) {
      var init, last := t[..|t| - 1], t[|t| - 1];
      InsertDistinctBy(init, x, key, f);
      InsertAvoids(init, x, key, f, f(last));
      assert Insert(t, x, key) == Insert(init, x, key) + [last];
    }
  }

  /** Sorting keeps a sequence free of repeated `f`-values. */
  lemma {:induction false} SortDistinctBy<T, U>(s: seq<T>, key: T -> Key, f: T -> U)
    requires DistinctBy(s, f)
    ensures DistinctBy(Sort(s, key), f)
  {
    if s != [] {
      var init, last := s[..|s| - 1], s[|s| - 1];
      SortDistinctBy(init, key, f);
      SortPermutes(init, key);
      var sorted := Sort(init, key);
      forall i | 0 <= i < |sorted|
        ensures f(sorted[i]) != f(last)
      {
        assert sorted[i] in multiset(sorted);
        assert sorted[i] in multiset(init);
        var m :| 0 <= m < |init| && init[m] == sorted[i];
        assert s[m] == init[m];
      }
      InsertDistinctBy(Sort(init, key), last, key, f);
    }
  }

  /** Stepping the insertion point left past an element that ranks strictly below `x`. */
  lemma InsertStep<T>(t: seq<T>, x: T, key: T -> Key, j: nat)
    requires 0 < j <= |t| && !AtLeast(key(t[j - 1]), key(x))
    ensures Insert(t[..j], x, key) + t[j..] == Insert(t[..j - 1], x, key) + t[j - 1..]
  {
    assert t[..j][..j - 1] == t[..j - 1];
    assert t[j - 1..] == [t[j - 1]] + t[j..];
  }

  /** Once the element before the insertion point ranks at least as high as `x`, `x` goes there. */
  lemma InsertStop<T>(t: seq<T>, x: T, key: T -> Key, j: nat)
    requires j <= |t| && (j == 0 || AtLeast(key(t[j - 1]), key(x)))
    ensures Insert(t[..j], x, key) == t[..j] + [x]
  {
  }

  /** Swapping `x` with its left neighbour moves the insertion point one place left. */
  lemma SwapLeft<T>(t: seq<T>, x: T, j: nat)
    requires 0 < j <= |t|
    ensures (t[..j] + [x] + t[j..])[j - 1 := x][j := t[j - 1]] == t[..j - 1] + [x] + t[j - 1..]
  {
    var u := (t[..j] + [x] + t[j..])[j - 1 := x][j := t[j - 1]];
    var v := t[..j - 1] + [x] + t[j - 1..];
    assert |u| == |v|;
    forall k | 0 <= k < |u|
      ensures u[k] == v[k]
    {
      if k < j - 1 {
      } else if k == j - 1 {
      } else if k == j {
      } else {
        assert u[k] == t[k - 1] == v[k];
      }
    }
  }

  /**
   * One step of insertion sort: `a[i]` moved into the ordered prefix
   * `a[..i]` by swapping it past the elements that rank strictly below it.
   */
  method InsertInPlace<T>(a: array<T>, i: nat, key: T -> Key)
    requires i < a.Length
    modifies a
    ensures a[..i + 1] == Insert(old(a[..i]), old(a[i]), key)
    ensures a[i + 1..] == old(a[i + 1..])
  {
    ghost var t := a[..i];
    ghost var x := a[i];
    var j := i;
    assert t[..j] == t && t[j..] == [];
    assert a[..i + 1] == t + [x];
    while j > 0 && !AtLeast(key(a[j - 1]), key(a[j]))
      invariant 0 <= j <= i
      invariant a[..i + 1] == t[..j] + [x] + t[j..]
      invariant a[i + 1..] == old(a[i + 1..])
      invariant Insert(t, x, key) == Insert(t[..j], x, key) + t[j..]
    {
      ghost var before := a[..i + 1];
      assert a[j - 1] == t[j - 1] && a[j] == x;
      InsertStep(t, x, key, j);
      SwapLeft(t, x, j);
      a[j - 1], a[j] := a[j], a[j - 1];
      assert a[..i + 1] == before[j - 1 := x][j := t[j - 1]];
      j := j - 1;
    }
    assert j > 0 ==> a[j - 1] == t[j - 1] && a[j] == x;
    InsertStop(t, x, key, j);
  }

  /**
   * Insertion sort in place. The comparator order is the one `Sort` uses, so
   * the array ends up holding exactly `Sort` of its old contents.
   */
  method SortInPlace<T>(a: array<T>, key: T -> Key)
    modifies a
    ensures a[..] == Sort(old(a[..]), key)
  {
    ghost var s := a[..];
    var i := 0;
    while i < a.Length
      invariant 0 <= i <= a.Length
      invariant a[..i] == Sort(s[..i], key)
      invariant a[i..] == s[i..]
    {
      assert a[i] == s[i];
      assert a[i + 1..] == s[i + 1..];
      SortNext(s, i, key);
      InsertInPlace(a, i, key);
      i := i + 1;
    }
    assert s[..a.Length] == s;
  }

  /** Sorting one more element inserts it into the sorted prefix. */
  lemma SortNext<T>(s: seq<T>, i: nat, key: T -> Key)
    requires i < |s|
    ensures Sort(s[..i + 1], key) == Insert(Sort(s[..i], key), s[i], key)
  {
    assert s[..i + 1][..i] == s[..i];
  }
}
