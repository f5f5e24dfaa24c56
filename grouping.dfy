/** `df.groupby(key)['amount'].sum()`: one group per distinct key, keys in
    ascending order, each group's total the pandas sum of its rows. */
module Grouping {
  import opened Ledger
  import opened Order
  import opened Sorting
  import opened Filters

  datatype Group<K> = Group(key: K, total: int)

  function KeyOfGroup<K>(g: Group<K>): K { g.key }

  /** `gs` is a grouping of `rows` by `key`: one entry per distinct key value
      that occurs in `rows`, none for other values, and each entry's total is
      the sum of the amounts of the rows with that key. Says nothing about
      order. */
  ghost predicate IsGrouping<K>(gs: seq<Group<K>>, rows: seq<Row>, key: Row -> K) {
    && (forall i, j :: 0 <= i < j < |gs| ==> gs[i].key != gs[j].key)
    && (forall i :: 0 <= i < |gs| ==> Matching(rows, key, gs[i].key) != [])
    && (forall x :: x in rows ==> exists i :: 0 <= i < |gs| && gs[i].key == key(x))
    && (forall i :: 0 <= i < |gs| ==> gs[i].total == Total(Matching(rows, key, gs[i].key)))
  }

  /** The group keys of `rows`: every key value once, ascending. */
  function GroupKeys<K(==,!new)>(rows: seq<Row>, key: Row -> K, lt: (K, K) -> bool): (ks: seq<K>)
    requires StrictTotalOrder(lt)
    ensures forall i :: 0 <= i < |ks| ==> Matching(rows, key, ks[i]) != []
    ensures forall x :: x in rows ==> key(x) in ks
    ensures StrictlySorted(ks, lt)
    ensures |ks| <= |rows|
  {
    var column := seq(|rows|, i requires 0 <= i < |rows| => key(rows[i]));
    forall x | x in rows ensures key(x) in column {
      var i :| 0 <= i < |rows| && rows[i] == x;
      assert column[i] == key(x);
    }
    var ks := SortedKeys(column, lt);
    forall i | 0 <= i < |ks| ensures Matching(rows, key, ks[i]) != [] {
      assert ks[i] in ks && ks[i] in column;
      var j :| 0 <= j < |column| && column[j] == ks[i];
      assert rows[j] in Matching(rows, key, ks[i]);
    }
    ks
  }

  /** `groupby(key)['amount'].sum()`: a grouping of `rows` with the keys in
      ascending order. */
  function GroupSums<K(==,!new)>(rows: seq<Row>, key: Row -> K, lt: (K, K) -> bool): (gs: seq<Group<K>>)
    requires StrictTotalOrder(lt)
    ensures IsGrouping(gs, rows, key)
    ensures forall i, j :: 0 <= i < j < |gs| ==> lt(gs[i].key, gs[j].key)
    ensures |gs| <= |rows|
  {
    var ks := GroupKeys(rows, key, lt);
    var gs := seq(|ks|, i requires 0 <= i < |ks| => Group(ks[i], Total(Matching(rows, key, ks[i]))));
    GroupSumsIsGrouping(rows, key, lt, ks, gs);
    gs
  }

  lemma GroupSumsIsGrouping<K(!new)>(rows: seq<Row>, key: Row -> K, lt: (K, K) -> bool, ks: seq<K>, gs: seq<Group<K>>)
    requires StrictTotalOrder(lt) && StrictlySorted(ks, lt)
    requires forall i :: 0 <= i < |ks| ==> Matching(rows, key, ks[i]) != []
    requires forall x :: x in rows ==> key(x) in ks
    requires |gs| == |ks|
    requires forall i :: 0 <= i < |ks| ==> gs[i] == Group(ks[i], Total(Matching(rows, key, ks[i])))
    ensures IsGrouping(gs, rows, key)
    ensures forall i, j :: 0 <= i < j < |gs| ==> lt(gs[i].key, gs[j].key)
  {
    StrictlySortedHasNoDuplicates(ks, lt);
    forall i, j | 0 <= i < j < |gs| ensures gs[i].key != gs[j].key && lt(gs[i].key, gs[j].key) {
      assert gs[i].key == ks[i] && gs[j].key == ks[j];
    }
    forall i | 0 <= i < |gs| ensures Matching(rows, key, gs[i].key) != [] {
      assert gs[i].key == ks[i];
    }
    forall x | x in rows ensures exists i :: 0 <= i < |gs| && gs[i].key == key(x) {
      var i :| 0 <= i < |ks| && ks[i] == key(x);
      assert gs[i].key == key(x);
    }
  }

  lemma PermutationKeepsGroupKeysDistinct<K>(a: seq<Group<K>>, b: seq<Group<K>>)
    requires multiset(a) == multiset(b)
    requires forall i, j :: 0 <= i < j < |a| ==> a[i].key != a[j].key
    ensures forall i, j :: 0 <= i < j < |b| ==> b[i].key != b[j].key
  {
    forall i, j | 0 <= i < j < |a| ensures KeyOfGroup(a[i]) != KeyOfGroup(a[j]) {
      assert a[i].key != a[j].key;
    }
    PermutationKeepsKeysDistinct(a, b, KeyOfGroup);
    forall i, j | 0 <= i < j < |b| ensures b[i].key != b[j].key {
      assert KeyOfGroup(b[i]) != KeyOfGroup(b[j]);
    }
  }

  /** Reordering a grouping (as `sort_values` and `nlargest` do) leaves a
      grouping of the same rows. */
  lemma PermutationKeepsGrouping<K>(a: seq<Group<K>>, b: seq<Group<K>>, rows: seq<Row>, key: Row -> K)
    requires multiset(a) == multiset(b)
    requires IsGrouping(a, rows, key)
    ensures IsGrouping(b, rows, key)
  {
    PermutationKeepsGroupKeysDistinct(a, b);
    forall i | 0 <= i < |b|
      ensures Matching(rows, key, b[i].key) != []
      ensures b[i].total == Total(Matching(rows, key, b[i].key))
    {
      assert b[i] in multiset(a);
      var p :| 0 <= p < |a| && a[p] == b[i];
      assert Matching(rows, key, a[p].key) != [];
      assert a[p].total == Total(Matching(rows, key, a[p].key));
    }
    forall x | x in rows ensures exists i :: 0 <= i < |b| && b[i].key == key(x) {
      var p :| 0 <= p < |a| && a[p].key == key(x);
      assert a[p] in multiset(b);
      var i :| 0 <= i < |b| && b[i] == a[p];
      assert b[i].key == key(x);
    }
  }

  /** Sum of the group totals. */
  function SumTotals<K>(gs: seq<Group<K>>): int {
    if gs == [] then 0 else gs[0].total + SumTotals(gs[1..])
  }

  /** Sum, over the keys `ks`, of the total of the rows having that key. */
  function SumOver<K(==)>(ks: seq<K>, rows: seq<Row>, key: Row -> K): int {
    if ks == [] then 0 else Total(Matching(rows, key, ks[0])) + SumOver(ks[1..], rows, key)
  }

  lemma {:induction false} SumOverEmpty<K>(ks: seq<K>, key: Row -> K)
    ensures SumOver(ks, [], key) == 0
  {
    if ks != [] {
      SumOverEmpty(ks[1..], key);
    }
  }

  lemma {:induction false} SumOverCons<K>(ks: seq<K>, x: Row, rest: seq<Row>, key: Row -> K)
    requires NoDuplicates(ks)
    ensures SumOver(ks, [x] + rest, key) == (if key(x) in ks then AmountOf(x) else 0) + SumOver(ks, rest, key)
  {
    if ks != [] {
      assert NoDuplicates(ks[1..]) by {
        forall i, j | 0 <= i < j < |ks[1..]| ensures ks[1..][i] != ks[1..][j] {
          assert ks[1..][i] == ks[i + 1] && ks[1..][j] == ks[j + 1];
        }
      }
      SumOverCons(ks[1..], x, rest, key);
      assert ([x] + rest)[0] == x && ([x] + rest)[1..] == rest;
      var head := if key(x) == ks[0] then [x] else [];
      assert Matching([x] + rest, key, ks[0]) == head + Matching(rest, key, ks[0]);
      TotalAppend(head, Matching(rest, key, ks[0]));
      if head != [] {
        assert head[1..] == [];
      }
      assert key(x) in ks <==> key(x) == ks[0] || key(x) in ks[1..];
    }
  }

  /** Summing per key over distinct keys that cover every row adds up every
      row exactly once. */
  lemma {:induction false} SumOverCovers<K>(ks: seq<K>, rows: seq<Row>, key: Row -> K)
    requires NoDuplicates(ks)
    requires forall x :: x in rows ==> key(x) in ks
    ensures SumOver(ks, rows, key) == Total(rows)
  {
    if rows == [] {
      SumOverEmpty(ks, key);
    } else {
      assert rows == [rows[0]] + rows[1..];
      assert rows[0] in rows;
      SumOverCons(ks, rows[0], rows[1..], key);
      SumOverCovers(ks, rows[1..], key);
    }
  }

  function KeysOf<K>(gs: seq<Group<K>>): seq<K> {
    seq(|gs|, i requires 0 <= i < |gs| => gs[i].key)
  }

  lemma {:induction false} SumTotalsIsSumOver<K>(gs: seq<Group<K>>, rows: seq<Row>, key: Row -> K)
    requires forall i :: 0 <= i < |gs| ==> gs[i].total == Total(Matching(rows, key, gs[i].key))
    ensures SumTotals(gs) == SumOver(KeysOf(gs), rows, key)
  {
    if gs != [] {
      assert KeysOf(gs)[1..] == KeysOf(gs[1..]);
      SumTotalsIsSumOver(gs[1..], rows, key);
    }
  }

  /** The groups partition the rows: their totals add up to the total of
      all rows. */
  lemma GroupingPartitions<K>(gs: seq<Group<K>>, rows: seq<Row>, key: Row -> K)
    requires IsGrouping(gs, rows, key)
    ensures SumTotals(gs) == Total(rows)
  {
    var ks := KeysOf(gs);
    SumTotalsIsSumOver(gs, rows, key);
    forall x | x in rows ensures key(x) in ks {
      var i :| 0 <= i < |gs| && gs[i].key == key(x);
      assert ks[i] == key(x);
    }
    SumOverCovers(ks, rows, key);
  }
}
