/**
 * `Array.prototype.sort` with a numeric comparator, as the list routes use
 * it: the array is reordered in place so that a key is non-decreasing.
 * Descending orders are sorted by the negated key.
 */
module Sorting {

  ghost predicate SortedBy<T>(s: seq<T>, key: T -> real) {
    forall i, j :: 0 <= i < j < |s| ==> key(s[i]) <= key(s[j])
  }

  method Swap<T>(a: array<T>, i: int, j: int)
    requires 0 <= i < a.Length && 0 <= j < a.Length
    modifies a
    ensures a[..] == old(a[..])[i := old(a[j])][j := old(a[i])]
    ensures multiset(a[..]) == old(multiset(a[..]))
  {
    var t := a[i];
    a[i] := a[j];
    a[j] := t;
  }

  /** Insertion sort: afterwards `a` is a permutation of its old contents, sorted by `key`. */
  method SortByKey<T>(a: array<T>, key: T -> real)
    modifies a
    ensures SortedBy(a[..], key)
    ensures multiset(a[..]) == old(multiset(a[..]))
  {
    var i := 0;
    while i < a.Length
      invariant 0 <= i <= a.Length
      invariant SortedBy(a[..i], key)
      invariant multiset(a[..]) == old(multiset(a[..]))
    {
      var j := i;
      while j > 0 && key(a[j - 1]) > key(a[j])
        invariant 0 <= j <= i
        invariant forall p, q :: 0 <= p < q <= i && q != j ==> key(a[p]) <= key(a[q])
        invariant multiset(a[..]) == old(multiset(a[..]))
      {
        Swap(a, j - 1, j);
        j := j - 1;
      }
      i := i + 1;
    }
  }

  /**
   * `items` is what `arr.sort(...).slice(0, n)` can give: the first
   * `min(n, |list|)` elements of a sorted permutation of `list`. It is
   * sorted, drawn from `list`, and no element left out ranks before one kept.
   */
  ghost predicate IsSortedPrefix<T>(items: seq<T>, list: seq<T>, key: T -> real, n: nat) {
    && |items| == (if n < |list| then n else |list|)
    && SortedBy(items, key)
    && multiset(items) <= multiset(list)
    && forall i, y :: 0 <= i < |items| && y in multiset(list) - multiset(items) ==> key(items[i]) <= key(y)
  }

  /** The first `m` elements of a sorted sequence rank no later than any element after them. */
  lemma SortedPrefixIsTop<T>(s: seq<T>, m: nat, key: T -> real)
    requires SortedBy(s, key) && m <= |s|
    ensures IsSortedPrefix(s[..m], s, key, m)
  {
    assert s == s[..m] + s[m..];
    assert multiset(s) == multiset(s[..m]) + multiset(s[m..]);
    forall i, y | 0 <= i < m && y in multiset(s) - multiset(s[..m])
      ensures key(s[i]) <= key(y)
    {
      assert y in multiset(s[m..]);
      var j :| 0 <= j < |s[m..]| && s[m..][j] == y;
      assert s[m + j] == y;
    }
  }

  /** Sort a copy of `list` by `key` and keep at most `n` elements; `list` itself is a value and stays as it was. */
  method SortedPrefix<T>(list: seq<T>, key: T -> real, n: nat) returns (items: seq<T>)
    ensures IsSortedPrefix(items, list, key, n)
  {
    var a := new T[|list|](i requires 0 <= i < |list| => list[i]);
    assert a[..] == list;
    SortByKey(a, key);
    var m := if n < a.Length then n else a.Length;
    SortedPrefixIsTop(a[..], m, key);
    items := a[..m];
  }

  /** A sorted prefix taken with no limit below the length is a sorted permutation of the whole list. */
  lemma SortedPrefixOfAll<T>(items: seq<T>, list: seq<T>, key: T -> real)
    requires IsSortedPrefix(items, list, key, |list|)
    ensures multiset(items) == multiset(list)
  {
    assert |multiset(items)| == |items| == |list| == |multiset(list)|;
    var d := multiset(list) - multiset(items);
    assert |d| == 0 by {
      assert multiset(list) == multiset(items) + d;
    }
  }
}
