/**
 * `Array.prototype.sort` with a comparator `(a, b) => key(a) - key(b)`, as the
 * store uses it to order days by creation time and history items by date.
 * ECMAScript requires that sort to be stable; it is modelled as an insertion
 * sort that places each element after every earlier element whose key is not
 * larger.
 */
module Sorting {

  ghost predicate SortedBy<T>(s: seq<T>, key: T -> int)
  {
    forall i, j :: 0 <= i < j < |s| ==> key(s[i]) <= key(s[j])
  }

  /** Inserts `x` after the last element of `s` whose key is at most `key(x)`. */
  function Insert<T>(x: T, s: seq<T>, key: T -> int): (r: seq<T>)
    ensures |r| == |s| + 1
    ensures multiset(r) == multiset(s) + multiset{x}
  {
    if s == [] || key(s[|s| - 1]) <= key(x) then s + [x]
    else
      assert s == s[..|s| - 1] + [s[|s| - 1]];
      Insert(x, s[..|s| - 1], key) + [s[|s| - 1]]
  }

  /** Inserting below a bound keeps every key below it. */
  lemma {:induction false} InsertBounded<T>(x: T, s: seq<T>, key: T -> int, b: int)
    requires key(x) <= b
    requires forall i :: 0 <= i < |s| ==> key(s[i]) <= b
    ensures forall i :: 0 <= i < |Insert(x, s, key)| ==> key(Insert(x, s, key)[i]) <= b
  {
    if s != [] && key(s[|s| - 1]) > key(x) {
      InsertBounded(x, s[..|s| - 1], key, b);
    }
  }

  /** Inserting into a sorted sequence keeps it sorted. */
  lemma {:induction false} InsertSorted<T>(x: T, s: seq<T>, key: T -> int)
    requires SortedBy(s, key)
    ensures SortedBy(Insert(x, s, key), key)
  {
    if s != [] && key(s[|s| - 1]) > key(x) {
      var init, last := s[..|s| - 1], s[|s| - 1];
      InsertSorted(x, init, key);
      InsertBounded(x, init, key, key(last));
    }
  }

  /** The stable sort of `s` by `key`: sorted, and a permutation of `s`. */
  function SortBy<T>(s: seq<T>, key: T -> int): (r: seq<T>)
    ensures |r| == |s|
    ensures multiset(r) == multiset(s)
    ensures SortedBy(r, key)
  {
    if s == [] then []
    else
      assert s == s[..|s| - 1] + [s[|s| - 1]];
      InsertSorted(s[|s| - 1], SortBy(s[..|s| - 1], key), key);
      Insert(s[|s| - 1], SortBy(s[..|s| - 1], key), key)
  }

  /** Sorting a sequence that is already in order changes nothing. */
  lemma {:induction false} SortBySortedIsIdentity<T>(s: seq<T>, key: T -> int)
    requires SortedBy(s, key)
    ensures SortBy(s, key) == s
  {
    if s != [] {
      var init, x := s[..|s| - 1], s[|s| - 1];
      SortedPrefix(s, key);
      SortBySortedIsIdentity(init, key);
      SortByLast(s, key);
      InsertAfterLast(x, init, key);
      assert init + [x] == s;
    }
  }

  /** Dropping the last element keeps a sequence sorted, and the rest is below the last key. */
  lemma SortedPrefix<T>(s: seq<T>, key: T -> int)
    requires s != [] && SortedBy(s, key)
    ensures SortedBy(s[..|s| - 1], key)
    ensures |s| > 1 ==> key(s[|s| - 2]) <= key(s[|s| - 1])
  {
    var init := s[..|s| - 1];
    forall i, j | 0 <= i < j < |init| ensures key(init[i]) <= key(init[j]) {
      assert init[i] == s[i] && init[j] == s[j];
    }
  }

  /** Sorting a non-empty sequence inserts its last element into the sorted rest. */
  lemma SortByLast<T>(s: seq<T>, key: T -> int)
    requires s != []
    ensures SortBy(s, key) == Insert(s[|s| - 1], SortBy(s[..|s| - 1], key), key)
  {
  }

  /** An element with a key at least the last one goes at the end. */
  lemma InsertAfterLast<T>(x: T, s: seq<T>, key: T -> int)
    requires s == [] || key(s[|s| - 1]) <= key(x)
    ensures Insert(x, s, key) == s + [x]
  {
  }

  /** The elements of `s` whose key is `k`, in their order in `s`. */
  function WithKey<T>(s: seq<T>, key: T -> int, k: int): (r: seq<T>)
    ensures |r| <= |s|
  {
    if s == [] then []
    else WithKey(s[..|s| - 1], key, k) + (if key(s[|s| - 1]) == k then [s[|s| - 1]] else [])
  }

  lemma WithKeyAppend<T>(s: seq<T>, x: T, key: T -> int, k: int)
    ensures WithKey(s + [x], key, k) == WithKey(s, key, k) + (if key(x) == k then [x] else [])
  {
    assert (s + [x])[..|s|] == s;
  }

  /** An element with a key below the last one goes before it. */
  lemma InsertBeforeLast<T>(x: T, s: seq<T>, key: T -> int)
    requires s != [] && key(s[|s| - 1]) > key(x)
    ensures Insert(x, s, key) == Insert(x, s[..|s| - 1], key) + [s[|s| - 1]]
  {
  }

  /** Inserting `x` puts it after every element with its key, so among equal keys it comes last. */
  lemma {:induction false} WithKeyInsert<T>(x: T, s: seq<T>, key: T -> int, k: int)
    ensures WithKey(Insert(x, s, key), key, k) == WithKey(s, key, k) + (if key(x) == k then [x] else [])
  {
    if s == [] || key(s[|s| - 1]) <= key(x) {
      InsertAfterLast(x, s, key);
      WithKeyAppend(s, x, key, k);
    } else {
      var init, last := s[..|s| - 1], s[|s| - 1];
      var front := WithKey(init, key, k);
      assert s == init + [last];
      WithKeyAppend(init, last, key, k);
      InsertBeforeLast(x, s, key);
      WithKeyInsert(x, init, key, k);
      WithKeyAppend(Insert(x, init, key), last, key, k);
      if key(x) == k {
        assert WithKey(s, key, k) == front;
        assert WithKey(Insert(x, s, key), key, k) == front + [x];
      } else {
        assert WithKey(Insert(x, s, key), key, k) == WithKey(s, key, k);
      }
    }
  }

  /**
   * The sort is stable: for every key, the elements with that key appear in
   * the sorted sequence in the order they have in the input.
   */
  lemma {:induction false} SortByStable<T>(s: seq<T>, key: T -> int, k: int)
    ensures WithKey(SortBy(s, key), key, k) == WithKey(s, key, k)
  {
    if s != [] {
      var init, x := s[..|s| - 1], s[|s| - 1];
      var sorted := SortBy(init, key);
      assert s == init + [x];
      WithKeyAppend(init, x, key, k);
      SortByStable(init, key, k);
      SortByLast(s, key);
      WithKeyInsert(x, sorted, key, k);
    }
  }

  /** Sorting keeps exactly the elements it is given. */
  lemma SortByMembers<T>(s: seq<T>, key: T -> int, x: T)
    ensures x in SortBy(s, key) <==> x in s
  {
    var r := SortBy(s, key);
    assert x in r <==> x in multiset(r);
    assert x in s <==> x in multiset(s);
  }
}
