/**
 * Stable sorting into non-increasing order of an integer key: Python's
 * `list.sort(key=..., reverse=True)` and JavaScript's `Array.prototype.sort` with a
 * comparator `(a, b) => key(b) - key(a)`. Both are stable, so the result is fully
 * determined: it is non-increasing in the key and keeps, for every key value, the
 * elements with that key in their input order (lemma SortedStableUnique). The
 * functional insertion sort `SortDesc` is the reference; `SortDescInPlace` sorts an
 * array in place and is proved to produce exactly that reference.
 */
module Sorting {

  predicate SortedDesc<T>(s: seq<T>, key: T -> int) {
    forall i, j :: 0 <= i < j < |s| ==> key(s[i]) >= key(s[j])
  }

  /** The elements of `s` whose key is `k`, in their order in `s`. */
  function WithKey<T>(s: seq<T>, key: T -> int, k: int): seq<T> {
    if s == [] then [] else (if key(s[0]) == k then [s[0]] else []) + WithKey(s[1..], key, k)
  }

  /** `t` is a stable rearrangement of `s`: for every key, the same elements in the same order. */
  ghost predicate SameKeyOrder<T>(s: seq<T>, t: seq<T>, key: T -> int) {
    forall k :: WithKey(s, key, k) == WithKey(t, key, k)
  }

  lemma {:induction false} WithKeyAppend<T>(u: seq<T>, v: seq<T>, key: T -> int, k: int)
    ensures WithKey(u + v, key, k) == WithKey(u, key, k) + WithKey(v, key, k)
  {
    if u == [] {
      assert u + v == v;
    } else {
      assert (u + v)[1..] == u[1..] + v;
      WithKeyAppend(u[1..], v, key, k);
    }
  }

  lemma {:induction false} WithKeyMember<T>(s: seq<T>, key: T -> int, k: int, x: T)
    requires x in WithKey(s, key, k)
    ensures x in s && key(x) == k
  {
    if s != [] && !(key(s[0]) == k && x == s[0]) {
      WithKeyMember(s[1..], key, k, x);
    }
  }

  lemma WithKeyHead<T>(s: seq<T>, key: T -> int)
    requires s != []
    ensures WithKey(s, key, key(s[0])) != []
  {
  }

  /** Inserts `x` into `s` in front of the first element whose key is not greater than `x`'s. */
  function Insert<T>(x: T, s: seq<T>, key: T -> int): seq<T> {
    if s == [] || key(x) >= key(s[0]) then [x] + s else [s[0]] + Insert(x, s[1..], key)
  }

  /** Reference stable sort into non-increasing key order. */
  function SortDesc<T>(s: seq<T>, key: T -> int): seq<T> {
    if s == [] then [] else Insert(s[0], SortDesc(s[1..], key), key)
  }

  lemma {:induction false} InsertSorted<T>(x: T, s: seq<T>, key: T -> int)
    requires SortedDesc(s, key)
    ensures SortedDesc(Insert(x, s, key), key)
    ensures |Insert(x, s, key)| == |s| + 1
    ensures multiset(Insert(x, s, key)) == multiset{x} + multiset(s)
    ensures Insert(x, s, key) != [] && (Insert(x, s, key)[0] == x || (s != [] && Insert(x, s, key)[0] == s[0]))
  {
    if s == [] || key(x) >= key(s[0]) {
    } else {
      InsertSorted(x, s[1..], key);
      assert s == [s[0]] + s[1..];
    }
  }

  lemma {:induction false} InsertKeyOrder<T>(x: T, s: seq<T>, key: T -> int)
    ensures SameKeyOrder(Insert(x, s, key), [x] + s, key)
  {
    if s == [] || key(x) >= key(s[0]) {
    } else {
      InsertKeyOrder(x, s[1..], key);
      forall k ensures WithKey(Insert(x, s, key), key, k) == WithKey([x] + s, key, k) {
        var tail := Insert(x, s[1..], key);
        assert ([s[0]] + tail)[1..] == tail;
        assert ([x] + s)[1..] == s;
        assert ([x] + s[1..])[1..] == s[1..];
        assert s[1..] == s[1..];
      }
    }
  }

  /** The reference sort is non-increasing in the key, a permutation of its input,
      and stable. */
  lemma {:induction false} SortDescCorrect<T>(s: seq<T>, key: T -> int)
    ensures SortedDesc(SortDesc(s, key), key)
    ensures multiset(SortDesc(s, key)) == multiset(s)
    ensures SameKeyOrder(SortDesc(s, key), s, key)
  {
    if s != [] {
      var rest := SortDesc(s[1..], key);
      SortDescCorrect(s[1..], key);
      InsertSorted(s[0], rest, key);
      InsertKeyOrder(s[0], rest, key);
      assert s == [s[0]] + s[1..];
      forall k ensures WithKey(SortDesc(s, key), key, k) == WithKey(s, key, k) {
        WithKeyAppend([s[0]], rest, key, k);
        WithKeyAppend([s[0]], s[1..], key, k);
      }
    }
  }

  /** Sortedness and stability determine the result: any two stable non-increasing
      rearrangements of the same elements are equal. */
  lemma {:induction false} SortedStableUnique<T>(s: seq<T>, t: seq<T>, key: T -> int)
    requires SortedDesc(s, key) && SortedDesc(t, key)
    requires SameKeyOrder(s, t, key)
    ensures s == t
    decreases |s| + |t|
  {
    if s == [] && t == [] {
    } else if s == [] {
      WithKeyHead(t, key);
      assert false;
    } else if t == [] {
      WithKeyHead(s, key);
      assert false;
    } else {
      var ka, kb := key(s[0]), key(t[0]);
      assert WithKey(t, key, kb)[0] == t[0];
      WithKeyMember(s, key, kb, t[0]);
      assert WithKey(s, key, ka)[0] == s[0];
      WithKeyMember(t, key, ka, s[0]);
      assert ka == kb;
      assert s[0] == t[0];
      forall k ensures WithKey(s[1..], key, k) == WithKey(t[1..], key, k) {
        var head := if ka == k then [s[0]] else [];
        assert WithKey(s, key, k) == head + WithKey(s[1..], key, k);
        assert WithKey(t, key, k) == head + WithKey(t[1..], key, k);
        assert WithKey(s[1..], key, k) == (head + WithKey(s[1..], key, k))[|head|..];
        assert WithKey(t[1..], key, k) == (head + WithKey(t[1..], key, k))[|head|..];
      }
      SortedStableUnique(s[1..], t[1..], key);
      assert s == [s[0]] + s[1..] && t == [t[0]] + t[1..];
    }
  }

  /** Exchanging two neighbours with different keys keeps every key's order. */
  lemma SwapKeepsKeyOrder<T>(s: seq<T>, j: nat, key: T -> int)
    requires 0 < j < |s| && key(s[j - 1]) != key(s[j])
    ensures SameKeyOrder(s[j - 1 := s[j]][j := s[j - 1]], s, key)
  {
    var t := s[j - 1 := s[j]][j := s[j - 1]];
    assert s == s[..j - 1] + [s[j - 1], s[j]] + s[j + 1..];
    assert t == s[..j - 1] + [s[j], s[j - 1]] + s[j + 1..];
    forall k ensures WithKey(t, key, k) == WithKey(s, key, k) {
      WithKeyAppend(s[..j - 1] + [s[j], s[j - 1]], s[j + 1..], key, k);
      WithKeyAppend(s[..j - 1], [s[j], s[j - 1]], key, k);
      WithKeyAppend(s[..j - 1] + [s[j - 1], s[j]], s[j + 1..], key, k);
      WithKeyAppend(s[..j - 1], [s[j - 1], s[j]], key, k);
    }
  }

  /** Exchanges the neighbours at `j - 1` and `j`. */
  method SwapNeighbours<T>(a: array<T>, j: int)
    requires 0 < j < a.Length
    modifies a
    ensures a[..] == old(a[..])[j - 1 := old(a[j])][j := old(a[j - 1])]
    ensures multiset(a[..]) == multiset(old(a[..]))
  {
    a[j - 1], a[j] := a[j], a[j - 1];
  }

  /** The part `a[..i + 1]` of an insertion pass: sorted once position `j` is left out. */
  ghost predicate SortedExcept<T>(s: seq<T>, i: int, j: int, key: T -> int)
    requires 0 <= j <= i < |s|
  {
    forall p, q :: 0 <= p < q <= i && p != j && q != j ==> key(s[p]) >= key(s[q])
  }

  /** The element being inserted, at `j`, has a greater key than everything it has passed. */
  ghost predicate Dominates<T>(s: seq<T>, i: int, j: int, key: T -> int)
    requires 0 <= j <= i < |s|
  {
    forall q :: j < q <= i ==> key(s[j]) > key(s[q])
  }

  lemma SwapStep<T>(s: seq<T>, i: int, j: int, key: T -> int)
    requires 0 < j <= i < |s|
    requires SortedExcept(s, i, j, key) && Dominates(s, i, j, key)
    requires key(s[j - 1]) < key(s[j])
    ensures SortedExcept(s[j - 1 := s[j]][j := s[j - 1]], i, j - 1, key)
    ensures Dominates(s[j - 1 := s[j]][j := s[j - 1]], i, j - 1, key)
  {
  }

  lemma InsertDone<T>(s: seq<T>, i: int, j: int, key: T -> int)
    requires 0 <= j <= i < |s|
    requires SortedExcept(s, i, j, key) && Dominates(s, i, j, key)
    requires j == 0 || key(s[j - 1]) >= key(s[j])
    ensures SortedDesc(s[..i + 1], key)
  {
  }

  /** `a[..i]` is sorted and `a[i]` moves left past every element with a smaller key. */
  method InsertAt<T>(a: array<T>, i: int, key: T -> int)
    requires 0 <= i < a.Length
    requires SortedDesc(a[..i], key)
    modifies a
    ensures SortedDesc(a[..i + 1], key)
    ensures multiset(a[..]) == multiset(old(a[..]))
    ensures SameKeyOrder(a[..], old(a[..]), key)
    ensures a[i + 1..] == old(a[i + 1..])
  {
    var j := i;
    assert SortedExcept(a[..], i, j, key);
    while j > 0 && key(a[j - 1]) < key(a[j])
      invariant 0 <= j <= i
      invariant SortedExcept(a[..], i, j, key) && Dominates(a[..], i, j, key)
      invariant multiset(a[..]) == multiset(old(a[..]))
      invariant SameKeyOrder(a[..], old(a[..]), key)
      invariant a[i + 1..] == old(a[i + 1..])
    {
      SwapKeepsKeyOrder(a[..], j, key);
      SwapStep(a[..], i, j, key);
      SwapNeighbours(a, j);
      j := j - 1;
    }
    InsertDone(a[..], i, j, key);
  }

  /** Insertion sort in place by neighbour exchanges; equal keys are never exchanged. */
  method SortDescInPlace<T>(a: array<T>, key: T -> int)
    modifies a
    ensures SortedDesc(a[..], key)
    ensures multiset(a[..]) == multiset(old(a[..]))
    ensures a[..] == SortDesc(old(a[..]), key)
  {
    var i := 0;
    while i < a.Length
      invariant 0 <= i <= a.Length
      invariant SortedDesc(a[..i], key)
      invariant multiset(a[..]) == multiset(old(a[..]))
      invariant SameKeyOrder(a[..], old(a[..]), key)
    {
      InsertAt(a, i, key);
      i := i + 1;
    }
    assert a[..a.Length] == a[..];
    SortDescCorrect(old(a[..]), key);
    SortedStableUnique(a[..], SortDesc(old(a[..]), key), key);
  }
}
