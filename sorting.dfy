/**
 * The stable comparison sort the analysis and the explorer call
 * (`Array.prototype.sort` with a numeric comparator), modelled as a stable
 * insertion sort on a real-valued key.
 */
module Sorting {

  /** Keys never decrease along s. */
  predicate SortedBy<T>(s: seq<T>, key: T -> real)
  {
    forall i, j :: 0 <= i < j < |s| ==> key(s[i]) <= key(s[j])
  }

  /** Puts x in front of the first element whose key is not smaller than its own. */
  function Insert<T>(x: T, s: seq<T>, key: T -> real): (r: seq<T>)
    ensures |r| == |s| + 1
  {
    if s == [] then [x]
    else if key(x) <= key(s[0]) then [x] + s
    else [s[0]] + Insert(x, s[1..], key)
  }

  /** Ascending by key; elements with equal keys keep their input order. */
  function SortByKey<T>(s: seq<T>, key: T -> real): (r: seq<T>)
    ensures |r| == |s|
  {
    if s == [] then [] else Insert(s[0], SortByKey(s[1..], key), key)
  }

  /** Insertion keeps a common lower bound of the keys. */
  lemma {:induction false} InsertAbove<T>(x: T, s: seq<T>, key: T -> real, b: real)
    requires key(x) >= b && forall k :: 0 <= k < |s| ==> key(s[k]) >= b
    ensures forall k :: 0 <= k < |Insert(x, s, key)| ==> key(Insert(x, s, key)[k]) >= b
  {
    if s != [] && key(x) > key(s[0]) {
      InsertAbove(x, s[1..], key, b);
    }
  }

  lemma {:induction false} InsertSorted<T>(x: T, s: seq<T>, key: T -> real)
    requires SortedBy(s, key)
    ensures SortedBy(Insert(x, s, key), key)
  {
    if s != [] && key(x) > key(s[0]) {
      InsertSorted(x, s[1..], key);
      InsertAbove(x, s[1..], key, key(s[0]));
      var r := Insert(x, s[1..], key);
      assert Insert(x, s, key) == [s[0]] + r;
      forall i, j | 0 <= i < j < |r| + 1
        ensures key(([s[0]] + r)[i]) <= key(([s[0]] + r)[j])
      {
        if i > 0 {
          assert ([s[0]] + r)[i] == r[i - 1] && ([s[0]] + r)[j] == r[j - 1];
        }
      }
    }
  }

  /** Insertion adds exactly one occurrence of x. */
  lemma {:induction false} InsertPermutes<T>(x: T, s: seq<T>, key: T -> real)
    ensures multiset(Insert(x, s, key)) == multiset(s) + multiset{x}
  {
    if s != [] && key(x) > key(s[0]) {
      InsertPermutes(x, s[1..], key);
      assert s == [s[0]] + s[1..];
    }
  }

  /** x alone when its key is v, otherwise nothing. */
  function Keep<T>(x: T, key: T -> real, v: real): seq<T>
  {
    if key(x) == v then [x] else []
  }

  /** The elements of s whose key is v, in their order in s. */
  function WithKey<T>(s: seq<T>, key: T -> real, v: real): seq<T>
  {
    if s == [] then [] else Keep(s[0], key, v) + WithKey(s[1..], key, v)
  }

  /**
   * Insertion puts x ahead of every element with the same key: among the
   * elements with key v, x (if its key is v) comes first, then those of s in
   * their old order.
   */
  lemma {:induction false} InsertStable<T>(x: T, s: seq<T>, key: T -> real, v: real)
    ensures WithKey(Insert(x, s, key), key, v) == Keep(x, key, v) + WithKey(s, key, v)
  {
    if s == [] {
      assert WithKey([x], key, v) == Keep(x, key, v) + WithKey([x][1..], key, v);
      assert [x][1..] == [];
    } else if key(x) <= key(s[0]) {
      var r := [x] + s;
      assert r[0] == x && r[1..] == s;
      assert WithKey(r, key, v) == Keep(r[0], key, v) + WithKey(r[1..], key, v);
    } else {
      var t := s[1..];
      InsertStable(x, t, key, v);
      var r := [s[0]] + Insert(x, t, key);
      assert r[0] == s[0] && r[1..] == Insert(x, t, key);
      var a, b, w := Keep(s[0], key, v), Keep(x, key, v), WithKey(t, key, v);
      assert a == [] || b == [];
      calc {
        WithKey(r, key, v);
        a + WithKey(Insert(x, t, key), key, v);
        a + (b + w);
        { SwapEmpty(a, b, w); }
        b + (a + w);
        { assert WithKey(s, key, v) == a + w; }
        b + WithKey(s, key, v);
      }
    }
  }

  /** When one of a, b is empty, they can be swapped in front of w. */
  lemma SwapEmpty<T>(a: seq<T>, b: seq<T>, w: seq<T>)
    requires a == [] || b == []
    ensures a + (b + w) == b + (a + w)
  {
    if a == [] {
      assert a + (b + w) == b + w == b + (a + w);
    } else {
      assert a + (b + w) == a + w == b + (a + w);
    }
  }

  /** The sort is stable: the elements sharing any one key keep their input order. */
  lemma {:induction false} SortByKeyStable<T>(s: seq<T>, key: T -> real, v: real)
    ensures WithKey(SortByKey(s, key), key, v) == WithKey(s, key, v)
  {
    if s != [] {
      SortByKeyStable(s[1..], key, v);
      InsertStable(s[0], SortByKey(s[1..], key), key, v);
    }
  }

  /** The sort returns its input, rearranged, in ascending key order, and is stable. */
  lemma {:induction false} SortByKeyCorrect<T>(s: seq<T>, key: T -> real)
    ensures SortedBy(SortByKey(s, key), key)
    ensures multiset(SortByKey(s, key)) == multiset(s)
    ensures forall v :: WithKey(SortByKey(s, key), key, v) == WithKey(s, key, v)
  {
    if s != [] {
      SortByKeyCorrect(s[1..], key);
      InsertSorted(s[0], SortByKey(s[1..], key), key);
      InsertPermutes(s[0], SortByKey(s[1..], key), key);
      assert s == [s[0]] + s[1..];
    }
    forall v {
      SortByKeyStable(s, key, v);
    }
  }
}
