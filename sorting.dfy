/** The two orderings pandas applies to the dashboard's tables: `sort_values`
    / `nlargest` (a sort under a total preorder, ties allowed) and the key
    order of `groupby` (each key once, ascending). */
module Sorting {
  import opened Order

  /** Puts `x` in front of the first element it may precede. Inserting before
      an equal element keeps `x` first, which makes `SortBy` stable. */
  function Insert<T>(x: T, s: seq<T>, le: (T, T) -> bool): (r: seq<T>)
    ensures multiset(r) == multiset(s) + multiset{x}
    ensures |r| == |s| + 1
  {
    if s == [] || le(x, s[0]) then [x] + s
    else
      assert s == [s[0]] + s[1..];
      [s[0]] + Insert(x, s[1..], le)
  }

  lemma {:induction false} InsertSorted<T(!new)>(x: T, s: seq<T>, le: (T, T) -> bool)
    requires TotalPreorder(le) && SortedBy(s, le)
    ensures SortedBy(Insert(x, s, le), le)
  {
    if s != [] && !le(x, s[0]) {
      var t := Insert(x, s[1..], le);
      InsertSorted(x, s[1..], le);
      assert le(s[0], x);
      forall e | e in t ensures le(s[0], e) {
        assert e in multiset(t);
        if e != x {
          assert e in multiset(s[1..]);
          var k :| 0 <= k < |s[1..]| && s[1..][k] == e;
          assert s[k + 1] == e;
        }
      }
      var r := [s[0]] + t;
      forall i, j | 0 <= i < j < |r| ensures le(r[i], r[j]) {
        if i == 0 {
          assert r[j] == t[j - 1] && t[j - 1] in t;
        } else {
          assert r[i] == t[i - 1] && r[j] == t[j - 1];
        }
      }
    }
  }

  /** Sorts `s` under `le`; the result is a permutation of `s` in which every
      element may precede every later one. */
  function SortBy<T(!new)>(s: seq<T>, le: (T, T) -> bool): (r: seq<T>)
    requires TotalPreorder(le)
    ensures multiset(r) == multiset(s)
    ensures |r| == |s|
    ensures SortedBy(r, le)
  {
    if s == [] then []
    else
      var t := SortBy(s[1..], le);
      InsertSorted(s[0], t, le);
      assert s == [s[0]] + s[1..];
      Insert(s[0], t, le)
  }

  /** Whenever a later element could as well have come first under `le`
      (a tie), the earlier one is `before` it. */
  ghost predicate TiesInOrder<T>(s: seq<T>, le: (T, T) -> bool, before: (T, T) -> bool) {
    forall i, j :: 0 <= i < j < |s| && le(s[j], s[i]) ==> before(s[i], s[j])
  }

  lemma {:induction false} InsertStable<T(!new)>(x: T, s: seq<T>, le: (T, T) -> bool, before: (T, T) -> bool)
    requires TiesInOrder(s, le, before)
    requires forall e :: e in s ==> before(x, e)
    ensures TiesInOrder(Insert(x, s, le), le, before)
  {
    var r := Insert(x, s, le);
    if s == [] || le(x, s[0]) {
      forall i, j | 0 <= i < j < |r| && le(r[j], r[i]) ensures before(r[i], r[j]) {
        if i == 0 {
          assert r[j] == s[j - 1] && s[j - 1] in s;
        } else {
          assert r[i] == s[i - 1] && r[j] == s[j - 1];
        }
      }
    } else {
      var t := Insert(x, s[1..], le);
      InsertStable(x, s[1..], le, before);
      assert r == [s[0]] + t;
      forall i, j | 0 <= i < j < |r| && le(r[j], r[i]) ensures before(r[i], r[j]) {
        if i == 0 {
          var e := t[j - 1];
          assert e == r[j] && e in multiset(t);
          if e == x {
            assert false;
          } else {
            assert e in multiset(s[1..]);
            var k :| 0 <= k < |s[1..]| && s[1..][k] == e;
            assert s[k + 1] == e && le(s[k + 1], s[0]);
          }
        } else {
          assert r[i] == t[i - 1] && r[j] == t[j - 1];
          assert le(t[j - 1], t[i - 1]);
        }
      }
    }
  }

  /** `SortBy` is stable: when the input is ordered by `before`, elements
      that tie under `le` keep that order in the output. */
  lemma {:induction false} SortByStable<T(!new)>(s: seq<T>, le: (T, T) -> bool, before: (T, T) -> bool)
    requires TotalPreorder(le)
    requires StrictlySorted(s, before)
    ensures TiesInOrder(SortBy(s, le), le, before)
  {
    if s != [] {
      var t := SortBy(s[1..], le);
      SortByStable(s[1..], le, before);
      forall e | e in t ensures before(s[0], e) {
        assert e in multiset(s[1..]);
        var k :| 0 <= k < |s[1..]| && s[1..][k] == e;
        assert s[k + 1] == e;
      }
      InsertStable(s[0], t, le, before);
    }
  }

  /** Adds key `k` to an ascending key list unless it is already there. */
  function InsertKey<K(==,!new)>(k: K, s: seq<K>, lt: (K, K) -> bool): (r: seq<K>)
    ensures forall x :: x in r <==> x == k || x in s
    ensures |r| <= |s| + 1
  {
    if s == [] then [k]
    else if k == s[0] then s
    else if lt(k, s[0]) then [k] + s
    else
      assert s == [s[0]] + s[1..];
      [s[0]] + InsertKey(k, s[1..], lt)
  }

  lemma {:induction false} InsertKeySorted<K(!new)>(k: K, s: seq<K>, lt: (K, K) -> bool)
    requires StrictTotalOrder(lt) && StrictlySorted(s, lt)
    ensures StrictlySorted(InsertKey(k, s, lt), lt)
  {
    if s != [] && k != s[0] && !lt(k, s[0]) {
      var t := InsertKey(k, s[1..], lt);
      InsertKeySorted(k, s[1..], lt);
      assert lt(s[0], k);
      forall e | e in t ensures lt(s[0], e) {
        if e != k {
          var m :| 0 <= m < |s[1..]| && s[1..][m] == e;
          assert s[m + 1] == e;
        }
      }
      var r := [s[0]] + t;
      forall i, j | 0 <= i < j < |r| ensures lt(r[i], r[j]) {
        if i == 0 {
          assert r[j] == t[j - 1] && t[j - 1] in t;
        } else {
          assert r[i] == t[i - 1] && r[j] == t[j - 1];
        }
      }
    }
  }

  /** The keys `groupby` produces: every value of `s` exactly once, in
      ascending order. */
  function SortedKeys<K(==,!new)>(s: seq<K>, lt: (K, K) -> bool): (r: seq<K>)
    requires StrictTotalOrder(lt)
    ensures forall x :: x in r <==> x in s
    ensures StrictlySorted(r, lt)
    ensures |r| <= |s|
  {
    if s == [] then []
    else
      var t := SortedKeys(s[1..], lt);
      InsertKeySorted(s[0], t, lt);
      assert s == [s[0]] + s[1..];
      InsertKey(s[0], t, lt)
  }

  lemma DuplicateCounted<T>(s: seq<T>, i: int, j: int)
    requires 0 <= i < j < |s| && s[i] == s[j]
    ensures multiset(s)[s[i]] >= 2
  {
    assert s == s[..i] + [s[i]] + s[i + 1..j] + [s[j]] + s[j + 1..];
  }

  lemma {:induction false} NoDuplicatesCountedOnce<T>(s: seq<T>, x: T)
    requires NoDuplicates(s)
    ensures multiset(s)[x] <= 1
  {
    if s != [] {
      assert s == [s[0]] + s[1..];
      NoDuplicatesCountedOnce(s[1..], x);
      if x == s[0] {
        assert x !in s[1..];
      }
    }
  }

  /** A permutation of a list whose elements have pairwise distinct keys
      again has pairwise distinct keys: reordering a grouped table keeps
      one row per key. */
  lemma PermutationKeepsKeysDistinct<T, K>(a: seq<T>, b: seq<T>, key: T -> K)
    requires multiset(a) == multiset(b)
    requires forall i, j :: 0 <= i < j < |a| ==> key(a[i]) != key(a[j])
    ensures forall i, j :: 0 <= i < j < |b| ==> key(b[i]) != key(b[j])
  {
    assert NoDuplicates(a) by {
      forall i, j | 0 <= i < j < |a| ensures a[i] != a[j] {
        assert key(a[i]) != key(a[j]);
      }
    }
    forall i, j | 0 <= i < j < |b| ensures key(b[i]) != key(b[j]) {
      if b[i] == b[j] {
        DuplicateCounted(b, i, j);
        NoDuplicatesCountedOnce(a, b[i]);
        assert false;
      }
      assert b[i] in multiset(a) && b[j] in multiset(a);
      var p :| 0 <= p < |a| && a[p] == b[i];
      var q :| 0 <= q < |a| && a[q] == b[j];
      assert p != q;
      if p < q {
        assert key(a[p]) != key(a[q]);
      } else {
        assert key(a[q]) != key(a[p]);
      }
    }
  }
}
