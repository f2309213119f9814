/** Python's `sorted(xs, key=k, reverse=True)` and `xs.sort(key=k, reverse=True)`:
    a stable sort into descending key order (elements with equal keys keep
    their original relative order), and the ordering on `str` keys that
    Python uses (code-point lexicographic order). */
module Sorting {
  import opened Common

  /** `ge(a, b)`: the key of `a` is at least the key of `b`. A total preorder
      is what any key ordering gives. */
  ghost predicate TotalPreorder<T(!new)>(ge: (T, T) -> bool) {
    && (forall a, b :: ge(a, b) || ge(b, a))
    && (forall a, b, c :: ge(a, b) && ge(b, c) ==> ge(a, c))
  }

  /** Every element's key is at least that of every later element. */
  predicate SortedDesc<T>(s: seq<T>, ge: (T, T) -> bool) {
    forall i, j :: 0 <= i < j < |s| ==> ge(s[i], s[j])
  }

  /** Places `x` in front of the first element whose key it is at least;
      `x` stands for an element that came earlier in the input. */
  function Insert<T>(x: T, s: seq<T>, ge: (T, T) -> bool): (r: seq<T>)
    ensures multiset(r) == multiset(s) + multiset{x}
    ensures |r| == |s| + 1
  {
    if s == [] || ge(x, s[0]) then [x] + s
    else
      assert s == [s[0]] + s[1..];
      [s[0]] + Insert(x, s[1..], ge)
  }

  /** Stable sort into descending key order. */
  function SortDesc<T>(s: seq<T>, ge: (T, T) -> bool): (r: seq<T>)
    ensures multiset(r) == multiset(s)
    ensures |r| == |s|
  {
    if s == [] then []
    else
      assert s == [s[0]] + s[1..];
      Insert(s[0], SortDesc(s[1..], ge), ge)
  }

  lemma {:induction false} InsertSorted<T(!new)>(x: T, s: seq<T>, ge: (T, T) -> bool)
    requires TotalPreorder(ge)
    requires SortedDesc(s, ge)
    ensures SortedDesc(Insert(x, s, ge), ge)
  {
    if s == [] || ge(x, s[0]) {
    } else {
      var t := Insert(x, s[1..], ge);
      InsertSorted(x, s[1..], ge);
      assert ge(s[0], x);
      forall j | 0 <= j < |t| ensures ge(s[0], t[j]) {
        assert t[j] in multiset(t);
        assert t[j] == x || t[j] in multiset(s[1..]);
        if t[j] != x {
          var k :| 0 <= k < |s[1..]| && s[1..][k] == t[j];
          assert s[k + 1] == t[j];
        }
      }
      assert Insert(x, s, ge) == [s[0]] + t;
    }
  }

  /** The result of the sort is in descending key order. */
  lemma {:induction false} SortDescSorted<T(!new)>(s: seq<T>, ge: (T, T) -> bool)
    requires TotalPreorder(ge)
    ensures SortedDesc(SortDesc(s, ge), ge)
  {
    if s != [] {
      SortDescSorted(s[1..], ge);
      InsertSorted(s[0], SortDesc(s[1..], ge), ge);
    }
  }

  /** `sorted(s, reverse=True)[:n]` keeps the top `n`: every element kept
      is at least every element cut off. */
  lemma PrefixOfSortedIsTop<T(!new)>(s: seq<T>, ge: (T, T) -> bool, n: nat)
    requires TotalPreorder(ge)
    ensures var t := SortDesc(s, ge);
            forall i, j :: 0 <= i < |Prefix(t, n)| <= j < |t| ==> ge(Prefix(t, n)[i], t[j])
  {
    SortDescSorted(s, ge);
  }

  /** `sorted(s, reverse=True)[:n]` for any integer `n`, negative included,
      keeps the newest: every element kept is at least every element of
      the input that was cut off. */
  lemma SliceOfSortedIsTop<T(!new)>(s: seq<T>, ge: (T, T) -> bool, n: int)
    requires TotalPreorder(ge)
    ensures var r := SliceTo(SortDesc(s, ge), n);
            forall x, y :: x in r && y in s && y !in r ==> ge(x, y)
  {
    var t := SortDesc(s, ge);
    var r := SliceTo(t, n);
    SortDescSorted(s, ge);
    assert r == t[..|r|];
    forall x, y | x in r && y in s && y !in r ensures ge(x, y) {
      var i :| 0 <= i < |r| && r[i] == x;
      assert y in multiset(t);
      var j :| 0 <= j < |t| && t[j] == y;
      assert forall k :: 0 <= k < |r| ==> r[k] == t[k];
      assert i < j;
    }
  }

  // ---------------------------------------------------------------------
  // Python's ordering of `str` values

  /** `a <= b` on strings: lexicographic by code point, a proper prefix first. */
  predicate StrLe(a: string, b: string) {
    a == [] || (b != [] && (a[0] < b[0] || (a[0] == b[0] && StrLe(a[1..], b[1..]))))
  }

  /** `a > b` on strings. */
  predicate StrGt(a: string, b: string) {
    !StrLe(a, b)
  }

  lemma {:induction false} StrLeTotal(a: string, b: string)
    ensures StrLe(a, b) || StrLe(b, a)
  {
    if a != [] && b != [] && a[0] == b[0] {
      StrLeTotal(a[1..], b[1..]);
    }
  }

  lemma {:induction false} StrLeTransitive(a: string, b: string, c: string)
    requires StrLe(a, b) && StrLe(b, c)
    ensures StrLe(a, c)
  {
    if a != [] && a[0] == b[0] && b[0] == c[0] {
      StrLeTransitive(a[1..], b[1..], c[1..]);
    }
  }
}
