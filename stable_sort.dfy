/**
 * Python's `list.sort(key=..., reverse=True)`: a stable sort into
 * non-increasing key order. Sort keys are pairs of naturals compared
 * lexicographically, as Python compares the tuples `(total_views, frequency)`;
 * a single natural `k` is sorted by the key `(k, 0)`.
 *
 * The model sorts by insertion. A stable sort is characterised by two facts:
 * the output is in non-increasing key order, and for every key the elements
 * carrying that key appear in the output exactly as in the input. Any two
 * sequences with these two facts are equal (SortIsUnique), so the choice of
 * algorithm does not show in the result.
 */
module StableSort {

  type Key = (nat, nat)

  /** `a >= b` in lexicographic order. */
  predicate AtLeast(a: Key, b: Key) {
    a.0 > b.0 || (a.0 == b.0 && a.1 >= b.1)
  }

  predicate SortedDesc<T>(s: seq<T>, key: T -> Key) {
    forall i, j :: 0 <= i < j < |s| ==> AtLeast(key(s[i]), key(s[j]))
  }

  /** The elements of `s` whose key is `k`, in their order in `s`. */
  function WithKey<T>(s: seq<T>, key: T -> Key, k: Key): seq<T> {
    if s == [] then []
    else WithKey(s[..|s| - 1], key, k) + (if key(s[|s| - 1]) == k then [s[|s| - 1]] else [])
  }

  /** `r` is what a stable sort of `s` into non-increasing key order produces. */
  ghost predicate IsStableSortDesc<T>(r: seq<T>, s: seq<T>, key: T -> Key) {
    SortedDesc(r, key) && forall k :: WithKey(r, key, k) == WithKey(s, key, k)
  }

  lemma {:induction false} WithKeyAppend<T>(a: seq<T>, b: seq<T>, key: T -> Key, k: Key)
    ensures WithKey(a + b, key, k) == WithKey(a, key, k) + WithKey(b, key, k)
  {
    if b != [] {
      var b' := b[..|b| - 1];
      assert (a + b)[..|a + b| - 1] == a + b';
      WithKeyAppend(a, b', key, k);
    } else {
      assert a + b == a;
    }
  }

  lemma WithKeySnoc<T>(s: seq<T>, x: T, key: T -> Key, k: Key)
    ensures WithKey(s + [x], key, k) == WithKey(s, key, k) + (if key(x) == k then [x] else [])
  {
    assert (s + [x])[..|s|] == s;
  }

  lemma {:induction false} WithKeyNone<T>(s: seq<T>, key: T -> Key, k: Key)
    requires forall i :: 0 <= i < |s| ==> key(s[i]) != k
    ensures WithKey(s, key, k) == []
  {
    if s != [] {
      WithKeyNone(s[..|s| - 1], key, k);
    }
  }

  /** How often `x` occurs among the elements with key `k`. */
  lemma {:induction false} WithKeyCount<T>(s: seq<T>, key: T -> Key, k: Key, x: T)
    ensures multiset(WithKey(s, key, k))[x] == if key(x) == k then multiset(s)[x] else 0
  {
    if s != [] {
      var s' := s[..|s| - 1];
      WithKeyCount(s', key, k, x);
      assert s == s' + [s[|s| - 1]];
    }
  }

  /** A stable sort is a permutation of its input. */
  lemma StableSortPermutes<T>(r: seq<T>, s: seq<T>, key: T -> Key)
    requires IsStableSortDesc(r, s, key)
    ensures multiset(r) == multiset(s) && |r| == |s|
  {
    forall x
      ensures multiset(r)[x] == multiset(s)[x]
    {
      WithKeyCount(r, key, key(x), x);
      WithKeyCount(s, key, key(x), x);
    }
    assert multiset(r) == multiset(s);
    assert |multiset(r)| == |r| && |multiset(s)| == |s|;
  }

  lemma WithKeyOfLast<T>(s: seq<T>, key: T -> Key)
    requires s != []
    ensures WithKey(s, key, key(s[|s| - 1])) != []
  {
  }

  /** The last element of a sorted sequence has a key no greater than any key occurring in it. */
  lemma {:induction false} LastIsLeast<T>(s: seq<T>, key: T -> Key, k: Key)
    requires SortedDesc(s, key) && WithKey(s, key, k) != []
    ensures s != [] && AtLeast(k, key(s[|s| - 1]))
  {
    var s' := s[..|s| - 1];
    if key(s[|s| - 1]) != k {
      LastIsLeast(s', key, k);
    }
  }

  /** Two sorted sequences that agree on the elements of every key are equal. */
  lemma {:induction false} SameGroupsEqual<T>(a: seq<T>, b: seq<T>, key: T -> Key)
    requires SortedDesc(a, key) && SortedDesc(b, key)
    requires forall k :: WithKey(a, key, k) == WithKey(b, key, k)
    ensures a == b
    decreases |a|
  {
    if a == [] {
      if b != [] {
        WithKeyOfLast(b, key);
        assert false;
      }
    } else {
      var x, kx := a[|a| - 1], key(a[|a| - 1]);
      var a' := a[..|a| - 1];
      assert WithKey(a, key, kx) != [];
      LastIsLeast(b, key, kx);
      var y, ky := b[|b| - 1], key(b[|b| - 1]);
      var b' := b[..|b| - 1];
      assert WithKey(b, key, ky) != [];
      LastIsLeast(a, key, ky);
      assert kx == ky;
      assert WithKey(a, key, kx) == WithKey(a', key, kx) + [x];
      assert WithKey(b, key, kx) == WithKey(b', key, kx) + [y];
      assert x == WithKey(a, key, kx)[|WithKey(a, key, kx)| - 1] == y;
      forall k
        ensures WithKey(a', key, k) == WithKey(b', key, k)
      {
        if k == kx {
          assert WithKey(a', key, k) + [x] == WithKey(b', key, k) + [y];
          assert WithKey(a', key, k) == (WithKey(a', key, k) + [x])[..|WithKey(a', key, k)|];
        } else {
          assert WithKey(a, key, k) == WithKey(a', key, k);
          assert WithKey(b, key, k) == WithKey(b', key, k);
        }
      }
      SameGroupsEqual(a', b', key);
      assert a == a' + [x] && b == b' + [y];
    }
  }

  /** A stable sort has exactly one possible result. */
  lemma SortIsUnique<T>(r1: seq<T>, r2: seq<T>, s: seq<T>, key: T -> Key)
    requires IsStableSortDesc(r1, s, key) && IsStableSortDesc(r2, s, key)
    ensures r1 == r2
  {
    SameGroupsEqual(r1, r2, key);
  }

  /**
   * Placing `x` at position `p` of `sorted`, where every element before `p` has
   * a key at least `x`'s and every element from `p` on a smaller one, keeps the
   * sequence sorted.
   */
  lemma InsertAtSorted<T>(sorted: seq<T>, x: T, key: T -> Key, p: nat)
    requires SortedDesc(sorted, key) && p <= |sorted|
    requires forall i :: 0 <= i < p ==> AtLeast(key(sorted[i]), key(x))
    requires forall i :: p <= i < |sorted| ==> !AtLeast(key(sorted[i]), key(x))
    ensures SortedDesc(sorted[..p] + [x] + sorted[p..], key)
  {
    var r := sorted[..p] + [x] + sorted[p..];
    forall i, j | 0 <= i < j < |r|
      ensures AtLeast(key(r[i]), key(r[j]))
    {
      if j < p || i > p {
        assert r[i] == sorted[if i < p then i else i - 1];
        assert r[j] == sorted[if j < p then j else j - 1];
      } else if i == p {
        assert r[j] == sorted[j - 1];
      } else if j == p {
        assert r[i] == sorted[i];
      } else {
        assert r[i] == sorted[i] && r[j] == sorted[j - 1];
      }
    }
  }

  /** Placed as above, `x` comes last among the elements of its key. */
  lemma InsertAtGroups<T>(sorted: seq<T>, x: T, key: T -> Key, p: nat, k: Key)
    requires p <= |sorted|
    requires forall i :: p <= i < |sorted| ==> !AtLeast(key(sorted[i]), key(x))
    ensures WithKey(sorted[..p] + [x] + sorted[p..], key, k) == WithKey(sorted + [x], key, k)
  {
    var front, back := sorted[..p], sorted[p..];
    WithKeyAppend(front + [x], back, key, k);
    WithKeyAppend(front, [x], key, k);
    WithKeyAppend(front, back, key, k);
    WithKeySnoc(sorted, x, key, k);
    assert sorted == front + back;
    if k == key(x) {
      forall i | 0 <= i < |back|
        ensures key(back[i]) != k
      {
        assert back[i] == sorted[p + i];
      }
      WithKeyNone(back, key, k);
    } else {
      assert WithKey([x], key, k) == [];
    }
  }

  /** Inserts `x` after every element of `sorted` whose key is at least `x`'s. */
  method InsertDesc<T>(sorted: seq<T>, x: T, key: T -> Key) returns (r: seq<T>)
    requires SortedDesc(sorted, key)
    ensures SortedDesc(r, key)
    ensures forall k :: WithKey(r, key, k) == WithKey(sorted + [x], key, k)
  {
    var p := 0;
    while p < |sorted| && AtLeast(key(sorted[p]), key(x))
      invariant 0 <= p <= |sorted|
      invariant forall i :: 0 <= i < p ==> AtLeast(key(sorted[i]), key(x))
    {
      p := p + 1;
    }
    forall i | p <= i < |sorted|
      ensures !AtLeast(key(sorted[i]), key(x))
    {
      assert AtLeast(key(sorted[p]), key(sorted[i]));
    }
    InsertAtSorted(sorted, x, key, p);
    r := sorted[..p] + [x] + sorted[p..];
    forall k
      ensures WithKey(r, key, k) == WithKey(sorted + [x], key, k)
    {
      InsertAtGroups(sorted, x, key, p, k);
    }
  }

  /** `s` sorted stably into non-increasing key order. */
  method SortDesc<T>(s: seq<T>, key: T -> Key) returns (r: seq<T>)
    ensures IsStableSortDesc(r, s, key)
  {
    r := [];
    var i := 0;
    while i < |s|
      invariant 0 <= i <= |s|
      invariant IsStableSortDesc(r, s[..i], key)
    {
      var r' := InsertDesc(r, s[i], key);
      forall k
        ensures WithKey(r', key, k) == WithKey(s[..i + 1], key, k)
      {
        WithKeySnoc(r, s[i], key, k);
        WithKeySnoc(s[..i], s[i], key, k);
        assert s[..i + 1] == s[..i] + [s[i]];
      }
      r, i := r', i + 1;
    }
    assert s[..|s|] == s;
  }

  /** `x` occurs in `s` at an earlier position than `y`. */
  ghost predicate Before<T>(s: seq<T>, x: T, y: T) {
    exists p, q :: 0 <= p < q < |s| && s[p] == x && s[q] == y
  }

  lemma {:induction false} WithKeyHas<T>(s: seq<T>, key: T -> Key, i: nat)
    requires i < |s|
    ensures exists a :: 0 <= a < |WithKey(s, key, key(s[i]))| && WithKey(s, key, key(s[i]))[a] == s[i]
  {
    var s', k := s[..|s| - 1], key(s[i]);
    if i < |s'| {
      WithKeyHas(s', key, i);
      var a :| 0 <= a < |WithKey(s', key, k)| && WithKey(s', key, k)[a] == s[i];
      assert WithKey(s, key, k)[a] == s[i];
    } else {
      assert WithKey(s, key, k)[|WithKey(s', key, k)|] == s[i];
    }
  }

  lemma {:induction false} WithKeyFrom<T>(s: seq<T>, key: T -> Key, k: Key, a: nat)
    requires a < |WithKey(s, key, k)|
    ensures exists i :: 0 <= i < |s| && s[i] == WithKey(s, key, k)[a]
  {
    var s' := s[..|s| - 1];
    if a < |WithKey(s', key, k)| {
      WithKeyFrom(s', key, k, a);
      var i :| 0 <= i < |s'| && s'[i] == WithKey(s', key, k)[a];
      assert s[i] == WithKey(s, key, k)[a];
    } else {
      assert s[|s| - 1] == WithKey(s, key, k)[a];
    }
  }

  /** Taking the elements of one key keeps their relative order. */
  lemma {:induction false} WithKeyKeepsOrder<T>(u: seq<T>, key: T -> Key, i: nat, j: nat)
    requires i < j < |u| && key(u[i]) == key(u[j])
    ensures Before(WithKey(u, key, key(u[i])), u[i], u[j])
  {
    var u', k := u[..|u| - 1], key(u[i]);
    var w, w' := WithKey(u, key, k), WithKey(u', key, k);
    if j < |u'| {
      WithKeyKeepsOrder(u', key, i, j);
      var p, q :| 0 <= p < q < |w'| && w'[p] == u[i] && w'[q] == u[j];
      assert w[p] == u[i] && w[q] == u[j];
    } else {
      WithKeyHas(u', key, i);
      var p :| 0 <= p < |w'| && w'[p] == u[i];
      assert w[p] == u[i] && w[|w'|] == u[j];
    }
  }

  /** What comes earlier among the elements of one key comes earlier in the whole sequence. */
  lemma {:induction false} BeforeInWithKey<T>(s: seq<T>, key: T -> Key, k: Key, x: T, y: T)
    requires Before(WithKey(s, key, k), x, y)
    ensures Before(s, x, y)
  {
    var s' := s[..|s| - 1];
    var w, w' := WithKey(s, key, k), WithKey(s', key, k);
    var a, b :| 0 <= a < b < |w| && w[a] == x && w[b] == y;
    if b < |w'| {
      assert w'[a] == x && w'[b] == y;
      BeforeInWithKey(s', key, k, x, y);
      var p, q :| 0 <= p < q < |s'| && s'[p] == x && s'[q] == y;
      assert s[p] == x && s[q] == y;
    } else {
      assert w'[a] == x;
      WithKeyFrom(s', key, k, a);
      var p :| 0 <= p < |s'| && s'[p] == x;
      assert s[p] == x && s[|s| - 1] == y;
    }
  }

  /** A stable sort keeps elements with equal keys in their input order. */
  lemma StableTies<T>(r: seq<T>, s: seq<T>, key: T -> Key, i: nat, j: nat)
    requires IsStableSortDesc(r, s, key)
    requires i < j < |r| && key(r[i]) == key(r[j])
    ensures Before(s, r[i], r[j])
  {
    WithKeyKeepsOrder(r, key, i, j);
    BeforeInWithKey(s, key, key(r[i]), r[i], r[j]);
  }
}
