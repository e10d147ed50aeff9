/**
 * The stable sort that `Array.prototype.sort` performs, specified by a key
 * projection and a comparison on keys. An element is placed before the first
 * element of the already sorted rest that it compares no later than, so
 * elements with equal keys keep their input order.
 */
module Sorting {
  import opened Base

  /** `le` is a total preorder: every two keys are comparable and it is transitive. */
  ghost predicate TotalPreorder<K(!new)>(le: (K, K) -> bool) {
    && (forall a, b :: le(a, b) || le(b, a))
    && (forall a, b, c :: le(a, b) && le(b, c) ==> le(a, c))
  }

  /** Every earlier element compares no later than every later one. */
  ghost predicate SortedBy<T, K>(s: seq<T>, key: T -> K, le: (K, K) -> bool) {
    forall i, j :: 0 <= i < j < |s| ==> le(key(s[i]), key(s[j]))
  }

  /** Inserts `x` before the first element of `s` it compares no later than. */
  function Insert<T, K>(x: T, s: seq<T>, key: T -> K, le: (K, K) -> bool): (r: seq<T>)
    ensures multiset(r) == multiset(s) + multiset{x}
    ensures |r| == |s| + 1
  {
    if s == [] then [x]
    else if le(key(x), key(s[0])) then [x] + s
    else
      var rest := Insert(x, s[1..], key, le);
      assert s == [s[0]] + s[1..];
      [s[0]] + rest
  }

  /** The stable sort of `s` by `key` under `le`. */
  function SortBy<T, K>(s: seq<T>, key: T -> K, le: (K, K) -> bool): (r: seq<T>)
    ensures multiset(r) == multiset(s)
    ensures |r| == |s|
  {
    if s == [] then []
    else
      assert s == [s[0]] + s[1..];
      Insert(s[0], SortBy(s[1..], key, le), key, le)
  }

  lemma {:induction false} InsertSorted<T, K(!new)>(x: T, s: seq<T>, key: T -> K, le: (K, K) -> bool)
    requires TotalPreorder(le)
    requires SortedBy(s, key, le)
    ensures SortedBy(Insert(x, s, key, le), key, le)
  {
    if s != [] && !le(key(x), key(s[0])) {
      var rest := Insert(x, s[1..], key, le);
      InsertSorted(x, s[1..], key, le);
      assert le(key(s[0]), key(x));
      InsertAbove(x, s[1..], key, le, key(s[0]));
      PrependSorted(s[0], rest, key, le);
    } else if s != [] {
      PrependSorted(x, s, key, le);
    }
  }

  /** Inserting into a list whose keys all lie at or after `lo` a value whose key does too keeps that so. */
  lemma InsertAbove<T, K>(x: T, s: seq<T>, key: T -> K, le: (K, K) -> bool, lo: K)
    requires le(lo, key(x))
    requires forall i :: 0 <= i < |s| ==> le(lo, key(s[i]))
    ensures var r := Insert(x, s, key, le); forall k :: 0 <= k < |r| ==> le(lo, key(r[k]))
  {
    var r := Insert(x, s, key, le);
    forall k | 0 <= k < |r| ensures le(lo, key(r[k])) {
      assert r[k] in multiset(r);
      if r[k] != x {
        assert r[k] in multiset(s);
        var j :| 0 <= j < |s| && s[j] == r[k];
      }
    }
  }

  /** A sorted list stays sorted behind a head that compares no later than its first element. */
  lemma PrependSorted<T, K(!new)>(y: T, s: seq<T>, key: T -> K, le: (K, K) -> bool)
    requires TotalPreorder(le)
    requires SortedBy(s, key, le)
    requires s != [] ==> le(key(y), key(s[0]))
    ensures SortedBy([y] + s, key, le)
  {
    var r := [y] + s;
    forall i, j | 0 <= i < j < |r| ensures le(key(r[i]), key(r[j])) {
      if i == 0 {
        if j > 1 {
          assert le(key(s[0]), key(s[j - 1]));
        }
      } else {
        assert r[i] == s[i - 1] && r[j] == s[j - 1];
      }
    }
  }

  /** The sort's result is ordered under any total preorder. */
  lemma {:induction false} SortBySorted<T, K(!new)>(s: seq<T>, key: T -> K, le: (K, K) -> bool)
    requires TotalPreorder(le)
    ensures SortedBy(SortBy(s, key, le), key, le)
  {
    if s != [] {
      SortBySorted(s[1..], key, le);
      InsertSorted(s[0], SortBy(s[1..], key, le), key, le);
    }
  }

  /** The sort keeps exactly the elements it was given. */
  lemma SortByMembers<T, K>(s: seq<T>, key: T -> K, le: (K, K) -> bool)
    ensures forall x :: x in SortBy(s, key, le) <==> x in s
  {
    var r := SortBy(s, key, le);
    forall x ensures x in r <==> x in s {
      assert x in r <==> x in multiset(r);
      assert x in s <==> x in multiset(s);
    }
  }

  /** The elements whose key is equivalent to `k` under `le`. */
  function Equivalent<T, K>(key: T -> K, le: (K, K) -> bool, k: K): T -> bool {
    (x: T) => le(key(x), k) && le(k, key(x))
  }

  /** `Filter` of a list with one element in front. */
  lemma FilterCons<T>(x: T, s: seq<T>, keep: T -> bool)
    ensures Filter([x] + s, keep) == (if keep(x) then [x] else []) + Filter(s, keep)
  {
    FilterAppend([x], s, keep);
    FilterSingleton(x, keep);
  }

  /** Sorting a list all of whose elements satisfy `keep` gives such a list. */
  lemma SortByKeeps<T, K>(s: seq<T>, key: T -> K, le: (K, K) -> bool, keep: T -> bool)
    requires forall i :: 0 <= i < |s| ==> keep(s[i])
    ensures forall i :: 0 <= i < |SortBy(s, key, le)| ==> keep(SortBy(s, key, le)[i])
  {
    var r := SortBy(s, key, le);
    forall i | 0 <= i < |r| ensures keep(r[i]) {
      assert r[i] in multiset(s);
    }
  }

  /** Two neighbours that are not both kept can trade places without changing the filter. */
  lemma FilterSwap<T>(a: T, b: T, t: seq<T>, keep: T -> bool)
    requires !(keep(a) && keep(b))
    ensures Filter([a] + ([b] + t), keep) == Filter([b] + ([a] + t), keep)
  {
    FilterCons(a, [b] + t, keep);
    FilterCons(b, t, keep);
    FilterCons(b, [a] + t, keep);
    FilterCons(a, t, keep);
  }

  /** Under a total preorder, two elements equivalent to the same key compare either way. */
  lemma EquivalentCompares<T, K(!new)>(x: T, y: T, key: T -> K, le: (K, K) -> bool, k: K)
    requires TotalPreorder(le)
    requires Equivalent(key, le, k)(x) && Equivalent(key, le, k)(y)
    ensures le(key(x), key(y))
  {
    assert le(key(x), k) && le(k, key(y));
  }

  /**
   * Inserting `x` keeps every class of equivalent keys in the order of `[x] + s`:
   * the elements `x` is placed behind compare later than it, so none of them
   * is equivalent to an element equivalent to `x`.
   */
  lemma {:induction false} InsertStable<T, K(!new)>(x: T, s: seq<T>, key: T -> K, le: (K, K) -> bool, k: K)
    requires TotalPreorder(le)
    ensures Filter(Insert(x, s, key, le), Equivalent(key, le, k)) == Filter([x] + s, Equivalent(key, le, k))
  {
    var same := Equivalent(key, le, k);
    if s != [] && !le(key(x), key(s[0])) {
      var rest := Insert(x, s[1..], key, le);
      assert Insert(x, s, key, le) == [s[0]] + rest;
      InsertStable(x, s[1..], key, le, k);
      assert !(same(s[0]) && same(x)) by {
        if same(x) && same(s[0]) {
          EquivalentCompares(x, s[0], key, le, k);
        }
      }
      calc {
        Filter([s[0]] + rest, same);
        { FilterCons(s[0], rest, same); }
        (if same(s[0]) then [s[0]] else []) + Filter(rest, same);
        (if same(s[0]) then [s[0]] else []) + Filter([x] + s[1..], same);
        { FilterCons(s[0], [x] + s[1..], same); }
        Filter([s[0]] + ([x] + s[1..]), same);
        { FilterSwap(s[0], x, s[1..], same); }
        Filter([x] + ([s[0]] + s[1..]), same);
        { assert [s[0]] + s[1..] == s; }
        Filter([x] + s, same);
      }
    }
  }

  /**
   * `Array.prototype.sort` is stable: elements with equivalent keys keep
   * their input order.
   */
  lemma {:induction false} SortByStable<T, K(!new)>(s: seq<T>, key: T -> K, le: (K, K) -> bool, k: K)
    requires TotalPreorder(le)
    ensures Filter(SortBy(s, key, le), Equivalent(key, le, k)) == Filter(s, Equivalent(key, le, k))
  {
    if s != [] {
      var same := Equivalent(key, le, k);
      var rest := SortBy(s[1..], key, le);
      calc {
        Filter(SortBy(s, key, le), same);
        Filter(Insert(s[0], rest, key, le), same);
        { InsertStable(s[0], rest, key, le, k); }
        Filter([s[0]] + rest, same);
        { FilterCons(s[0], rest, same); }
        (if same(s[0]) then [s[0]] else []) + Filter(rest, same);
        { SortByStable(s[1..], key, le, k); }
        (if same(s[0]) then [s[0]] else []) + Filter(s[1..], same);
        { FilterCons(s[0], s[1..], same); }
        Filter([s[0]] + s[1..], same);
        { assert [s[0]] + s[1..] == s; }
        Filter(s, same);
      }
    }
  }
}
