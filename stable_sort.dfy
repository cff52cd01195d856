/**
 * `Array.prototype.sort` with the comparator `(a, b) => key(b) - key(a)`: a stable sort into
 * newest-first order. `SortDesc` is the specification (insertion from the right, so that an
 * element goes after every element with a key at least its own); `SortInPlace` runs it on an
 * array. The lemmas show that `SortDesc` is non-increasing, a permutation, stable, and the
 * only sequence with those three properties, so every stable sort agrees with it.
 */
module StableSort {

  /** Keys never increase along `s`. */
  predicate NonIncreasing<T>(s: seq<T>, key: T -> int) {
    forall i, j :: 0 <= i < j < |s| ==> key(s[i]) >= key(s[j])
  }

  /** The elements of `s` whose key is `k`, in their order in `s`. */
  function WithKey<T>(s: seq<T>, key: T -> int, k: int): seq<T> {
    if s == [] then []
    else WithKey(s[..|s| - 1], key, k) + (if key(s[|s| - 1]) == k then [s[|s| - 1]] else [])
  }

  /** `r` is what a stable newest-first sort of `s` must produce. */
  ghost predicate IsStableSortOf<T>(r: seq<T>, s: seq<T>, key: T -> int) {
    && NonIncreasing(r, key)
    && multiset(r) == multiset(s)
    && forall k :: WithKey(r, key, k) == WithKey(s, key, k)
  }

  /** Inserts `x` into `r` after the last element whose key is at least `key(x)`. */
  function Insert<T>(r: seq<T>, x: T, key: T -> int): (r': seq<T>)
    ensures |r'| == |r| + 1
  {
    if r == [] || key(r[|r| - 1]) >= key(x) then r + [x]
    else Insert(r[..|r| - 1], x, key) + [r[|r| - 1]]
  }

  /** Insertion sort, newest first. */
  function SortDesc<T>(s: seq<T>, key: T -> int): (r: seq<T>)
    ensures |r| == |s|
  {
    if s == [] then [] else Insert(SortDesc(s[..|s| - 1], key), s[|s| - 1], key)
  }

  // ---------------------------------------------------------------------------------------
  // The in-place sort

  /** Sorts `a` newest-first by `key`, in place, keeping equal keys in their input order. */
  method SortInPlace<T>(a: array<T>, key: T -> int)
    modifies a
    ensures a[..] == SortDesc(old(a[..]), key)
  {
    ghost var input := a[..];
    var i := 0;
    while i < a.Length
      invariant 0 <= i <= a.Length
      invariant a[..i] == SortDesc(input[..i], key)
      invariant a[i..] == input[i..]
    {
      InsertLast(a, i, key);
      assert input[..i + 1][..i] == input[..i];
      assert a[i + 1..] == input[i + 1..];
      i := i + 1;
    }
    assert input[..a.Length] == input;
  }

  /** Moves `a[i]` left past the elements of the sorted `a[..i]` with a smaller key. */
  method InsertLast<T>(a: array<T>, i: int, key: T -> int)
    requires 0 <= i < a.Length
    modifies a
    ensures a[..i + 1] == Insert(old(a[..i]), old(a[i]), key)
    ensures a[i + 1..] == old(a[i + 1..])
  {
    var x := a[i];
    ghost var p := a[..i];
    var j := i;
    while j > 0 && key(a[j - 1]) < key(x)
      invariant 0 <= j <= i
      invariant forall k :: 0 <= k < j ==> a[k] == p[k]
      invariant forall k :: j < k <= i ==> a[k] == p[k - 1]
      invariant forall k :: i < k < a.Length ==> a[k] == old(a[k])
      invariant forall k :: j <= k < i ==> key(p[k]) < key(x)
    {
      a[j] := a[j - 1];
      j := j - 1;
    }
    InsertAt(p, j, x, key);
    a[j] := x;
    assert a[..i + 1] == p[..j] + [x] + p[j..];
  }

  /**
   * Where the inner loop stops: `x` goes right after the last element, from the right, whose
   * key is at least its own.
   */
  lemma {:induction false} InsertAt<T>(p: seq<T>, j: int, x: T, key: T -> int)
    requires 0 <= j <= |p|
    requires j == 0 || key(p[j - 1]) >= key(x)
    requires forall k :: j <= k < |p| ==> key(p[k]) < key(x)
    ensures Insert(p, x, key) == p[..j] + [x] + p[j..]
    decreases |p|
  {
    if |p| == j {
      assert p[..j] == p && p[j..] == [];
    } else {
      var init := p[..|p| - 1];
      InsertAt(init, j, x, key);
      assert init[..j] == p[..j];
      assert p[j..] == init[j..] + [p[|p| - 1]];
    }
  }

  // ---------------------------------------------------------------------------------------
  // Properties of the specification

  lemma {:induction false} InsertMultiset<T>(r: seq<T>, x: T, key: T -> int)
    ensures multiset(Insert(r, x, key)) == multiset(r) + multiset{x}
  {
    if r != [] && key(r[|r| - 1]) < key(x) {
      InsertMultiset(r[..|r| - 1], x, key);
      assert r == r[..|r| - 1] + [r[|r| - 1]];
    }
  }

  lemma {:induction false} InsertNonIncreasing<T>(r: seq<T>, x: T, key: T -> int)
    requires NonIncreasing(r, key)
    ensures NonIncreasing(Insert(r, x, key), key)
  {
    if r != [] && key(r[|r| - 1]) < key(x) {
      var init, y := r[..|r| - 1], r[|r| - 1];
      InsertNonIncreasing(init, x, key);
      var ins := Insert(init, x, key);
      InsertMultiset(init, x, key);
      forall i | 0 <= i < |ins|
        ensures key(ins[i]) >= key(y)
      {
        assert ins[i] in multiset(ins);
        if ins[i] != x {
          assert ins[i] in multiset(init);
          var m :| 0 <= m < |init| && init[m] == ins[i];
          assert r[m] == init[m];
        }
      }
    }
  }

  lemma {:induction false} WithKeyAppend<T>(a: seq<T>, b: seq<T>, key: T -> int, k: int)
    ensures WithKey(a + b, key, k) == WithKey(a, key, k) + WithKey(b, key, k)
  {
    if b != [] {
      WithKeyAppend(a, b[..|b| - 1], key, k);
      assert (a + b)[..|a + b| - 1] == a + b[..|b| - 1];
    } else {
      assert a + b == a;
    }
  }

  lemma {:induction false} InsertWithKey<T>(r: seq<T>, x: T, key: T -> int, k: int)
    ensures WithKey(Insert(r, x, key), key, k)
         == WithKey(r, key, k) + (if key(x) == k then [x] else [])
  {
    if r == [] || key(r[|r| - 1]) >= key(x) {
      WithKeyAppend(r, [x], key, k);
    } else {
      var init, y := r[..|r| - 1], r[|r| - 1];
      InsertWithKey(init, x, key, k);
      WithKeyAppend(Insert(init, x, key), [y], key, k);
      assert r == init + [y];
      WithKeyAppend(init, [y], key, k);
    }
  }

  /** The sorted sequence is a permutation of the input. */
  lemma {:induction false} SortDescMultiset<T>(s: seq<T>, key: T -> int)
    ensures multiset(SortDesc(s, key)) == multiset(s)
  {
    if s != [] {
      SortDescMultiset(s[..|s| - 1], key);
      InsertMultiset(SortDesc(s[..|s| - 1], key), s[|s| - 1], key);
      assert s == s[..|s| - 1] + [s[|s| - 1]];
    }
  }

  /** The sorted sequence is newest-first. */
  lemma {:induction false} SortDescNonIncreasing<T>(s: seq<T>, key: T -> int)
    ensures NonIncreasing(SortDesc(s, key), key)
  {
    if s != [] {
      SortDescNonIncreasing(s[..|s| - 1], key);
      InsertNonIncreasing(SortDesc(s[..|s| - 1], key), s[|s| - 1], key);
    }
  }

  /** Stability: the elements sharing any one key keep their input order. */
  lemma {:induction false} SortDescStable<T>(s: seq<T>, key: T -> int, k: int)
    ensures WithKey(SortDesc(s, key), key, k) == WithKey(s, key, k)
  {
    if s != [] {
      SortDescStable(s[..|s| - 1], key, k);
      InsertWithKey(SortDesc(s[..|s| - 1], key), s[|s| - 1], key, k);
    }
  }

  /** `SortDesc` is a stable newest-first sort. */
  lemma SortDescIsStableSort<T>(s: seq<T>, key: T -> int)
    ensures IsStableSortOf(SortDesc(s, key), s, key)
  {
    SortDescMultiset(s, key);
    SortDescNonIncreasing(s, key);
    forall k ensures WithKey(SortDesc(s, key), key, k) == WithKey(s, key, k) {
      SortDescStable(s, key, k);
    }
  }

  /** The last element of a non-increasing sequence has its smallest key. */
  lemma LastIsSmallest<T>(r: seq<T>, key: T -> int, x: T)
    requires NonIncreasing(r, key) && x in multiset(r)
    ensures key(r[|r| - 1]) <= key(x)
  {
    var m :| 0 <= m < |r| && r[m] == x;
  }

  /** Dropping the last element drops it from its key's elements and nothing else. */
  lemma WithKeyDropLast<T>(r: seq<T>, key: T -> int, k: int)
    requires r != []
    ensures var w := WithKey(r, key, k);
      if key(r[|r| - 1]) == k then w != [] && w[|w| - 1] == r[|r| - 1] && WithKey(r[..|r| - 1], key, k) == w[..|w| - 1]
      else WithKey(r[..|r| - 1], key, k) == w
  {
  }

  /** Under the hypotheses of `StableSortUnique`, the two sequences end with the same element. */
  lemma SameLast<T>(r: seq<T>, q: seq<T>, key: T -> int)
    requires r != [] && q != []
    requires NonIncreasing(r, key) && NonIncreasing(q, key)
    requires multiset(r) == multiset(q)
    requires forall k :: WithKey(r, key, k) == WithKey(q, key, k)
    ensures r[|r| - 1] == q[|q| - 1]
  {
    var y, z := r[|r| - 1], q[|q| - 1];
    assert y in multiset(q) by { assert y in r; }
    assert z in multiset(r) by { assert z in q; }
    LastIsSmallest(r, key, z);
    LastIsSmallest(q, key, y);
    WithKeyDropLast(r, key, key(y));
    WithKeyDropLast(q, key, key(y));
    assert WithKey(r, key, key(y)) == WithKey(q, key, key(y));
  }

  lemma DropLastSame<T>(r: seq<T>, q: seq<T>)
    requires r != [] && q != [] && r[|r| - 1] == q[|q| - 1]
    requires multiset(r) == multiset(q)
    ensures multiset(r[..|r| - 1]) == multiset(q[..|q| - 1])
  {
    var y := r[|r| - 1];
    assert r == r[..|r| - 1] + [y] && q == q[..|q| - 1] + [y];
    assert multiset(r[..|r| - 1]) == multiset(r) - multiset{y};
    assert multiset(q[..|q| - 1]) == multiset(q) - multiset{y};
  }

  lemma NonIncreasingPrefix<T>(r: seq<T>, key: T -> int)
    requires r != [] && NonIncreasing(r, key)
    ensures NonIncreasing(r[..|r| - 1], key)
  {
  }

  /**
   * Two non-increasing permutations of each other that agree on every key's elements are
   * equal: a stable sort has only one possible result.
   */
  lemma {:induction false} StableSortUnique<T>(r: seq<T>, q: seq<T>, key: T -> int)
    requires NonIncreasing(r, key) && NonIncreasing(q, key)
    requires multiset(r) == multiset(q)
    requires forall k :: WithKey(r, key, k) == WithKey(q, key, k)
    ensures r == q
    decreases |r|
  {
    assert |r| == |multiset(r)| == |q|;
    if r != [] {
      var r', q' := r[..|r| - 1], q[..|q| - 1];
      SameLast(r, q, key);
      DropLastSame(r, q);
      NonIncreasingPrefix(r, key);
      NonIncreasingPrefix(q, key);
      forall k ensures WithKey(r', key, k) == WithKey(q', key, k) {
        WithKeyDropLast(r, key, k);
        WithKeyDropLast(q, key, k);
      }
      StableSortUnique(r', q', key);
    }
  }

  /** Every stable newest-first sort of `s` is `SortDesc(s)`. */
  lemma StableSortIsSortDesc<T>(r: seq<T>, s: seq<T>, key: T -> int)
    requires IsStableSortOf(r, s, key)
    ensures r == SortDesc(s, key)
  {
    SortDescIsStableSort(s, key);
    StableSortUnique(r, SortDesc(s, key), key);
  }
}
