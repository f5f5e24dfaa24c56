/** The boolean masks of firefly_dashboard.py. The category-and-date mask is
    written out three times in the source (create_bar_charts, lines 31-35;
    get_top_categories, lines 103-107; the summary tables of main, lines
    201-205) and defined once here. */
module Filters {
  import opened Ledger

  /** `df['date'].dt.date >= start_date` and `<= end_date`: the date part only,
      both ends inclusive. */
  predicate InRange(r: Row, start: Date, end: Date) {
    DateLe(start, r.at.date) && DateLe(r.at.date, end)
  }

  /** `df['category'].isin(selected_categories)` together with the date range. */
  predicate Selected(r: Row, cats: set<string>, start: Date, end: Date) {
    r.category in cats && InRange(r, start, end)
  }

  /** `df[mask]` for the category-and-date mask. */
  function FilterRows(rows: seq<Row>, cats: set<string>, start: Date, end: Date): (out: seq<Row>)
    ensures forall x :: x in out <==> x in rows && Selected(x, cats, start, end)
    ensures |out| <= |rows|
  {
    if rows == [] then []
    else
      assert forall x :: x in rows <==> x == rows[0] || x in rows[1..];
      (if Selected(rows[0], cats, start, end) then [rows[0]] else []) + FilterRows(rows[1..], cats, start, end)
  }

  /** `df[mask]` for the date-only mask of create_overview and
      create_time_series. */
  function InRangeRows(rows: seq<Row>, start: Date, end: Date): (out: seq<Row>)
    ensures forall x :: x in out <==> x in rows && InRange(x, start, end)
    ensures |out| <= |rows|
  {
    if rows == [] then []
    else
      assert forall x :: x in rows <==> x == rows[0] || x in rows[1..];
      (if InRange(rows[0], start, end) then [rows[0]] else []) + InRangeRows(rows[1..], start, end)
  }

  /** `df[df[column] == value]`: the rows whose `key` column equals `k`. */
  function Matching<K(==)>(rows: seq<Row>, key: Row -> K, k: K): (out: seq<Row>)
    ensures forall x :: x in out <==> x in rows && key(x) == k
    ensures |out| <= |rows|
  {
    if rows == [] then []
    else
      assert forall x :: x in rows <==> x == rows[0] || x in rows[1..];
      (if key(rows[0]) == k then [rows[0]] else []) + Matching(rows[1..], key, k)
  }

  /** `df[df['type'] == kind]`: a missing type equals no string. */
  function OfKind(rows: seq<Row>, kind: string): (out: seq<Row>)
    ensures forall x :: x in out <==> x in rows && x.kind == Some(kind)
  {
    Matching(rows, KindOf, Some(kind))
  }

  /** The rows a `groupby` on the type column keeps: those whose type is
      present (pandas drops NaN keys). */
  function Typed(rows: seq<Row>): (out: seq<Row>)
    ensures forall x :: x in out <==> x in rows && x.kind.Some?
    ensures |out| <= |rows|
  {
    if rows == [] then []
    else
      assert forall x :: x in rows <==> x == rows[0] || x in rows[1..];
      (if rows[0].kind.Some? then [rows[0]] else []) + Typed(rows[1..])
  }

  /** Masks keep the row order: filtering a concatenation filters each part. */
  lemma {:induction false} FilterRowsAppend(a: seq<Row>, b: seq<Row>, cats: set<string>, start: Date, end: Date)
    ensures FilterRows(a + b, cats, start, end) == FilterRows(a, cats, start, end) + FilterRows(b, cats, start, end)
  {
    if a == [] {
      assert a + b == b;
    } else {
      assert (a + b)[0] == a[0] && (a + b)[1..] == a[1..] + b;
      FilterRowsAppend(a[1..], b, cats, start, end);
    }
  }

  /** Applying the same mask twice gives the same table as applying it once. */
  lemma {:induction false} FilterRowsIdempotent(rows: seq<Row>, cats: set<string>, start: Date, end: Date)
    ensures FilterRows(FilterRows(rows, cats, start, end), cats, start, end) == FilterRows(rows, cats, start, end)
  {
    if rows != [] {
      FilterRowsIdempotent(rows[1..], cats, start, end);
      var rest := FilterRows(rows[1..], cats, start, end);
      if Selected(rows[0], cats, start, end) {
        assert FilterRows(rows, cats, start, end) == [rows[0]] + rest;
        assert ([rows[0]] + rest)[1..] == rest;
      } else {
        assert FilterRows(rows, cats, start, end) == rest;
      }
    }
  }

  /** An empty category selection selects no row. */
  lemma NoCategoriesSelectNothing(rows: seq<Row>, start: Date, end: Date)
    ensures FilterRows(rows, {}, start, end) == []
  {
  }

  /** A range whose start is after its end selects no row. */
  lemma EmptyRangeSelectsNothing(rows: seq<Row>, start: Date, end: Date)
    requires !DateLe(start, end)
    ensures InRangeRows(rows, start, end) == []
  {
  }

  lemma {:induction false} InRangeRowsAppend(a: seq<Row>, b: seq<Row>, start: Date, end: Date)
    ensures InRangeRows(a + b, start, end) == InRangeRows(a, start, end) + InRangeRows(b, start, end)
  {
    if a == [] {
      assert a + b == b;
    } else {
      assert (a + b)[0] == a[0] && (a + b)[1..] == a[1..] + b;
      InRangeRowsAppend(a[1..], b, start, end);
    }
  }

  lemma {:induction false} MatchingAppend<K>(a: seq<Row>, b: seq<Row>, key: Row -> K, k: K)
    ensures Matching(a + b, key, k) == Matching(a, key, k) + Matching(b, key, k)
  {
    if a == [] {
      assert a + b == b;
    } else {
      assert (a + b)[0] == a[0] && (a + b)[1..] == a[1..] + b;
      MatchingAppend(a[1..], b, key, k);
    }
  }

  /** Two column-equality masks can be applied in either order. */
  lemma {:induction false} MatchingCommute<A, B>(rows: seq<Row>, f: Row -> A, a: A, g: Row -> B, b: B)
    ensures Matching(Matching(rows, f, a), g, b) == Matching(Matching(rows, g, b), f, a)
  {
    if rows != [] {
      var x, rest := rows[0], rows[1..];
      MatchingCommute(rest, f, a, g, b);
      var fx := if f(x) == a then [x] else [];
      var gx := if g(x) == b then [x] else [];
      MatchingAppend(fx, Matching(rest, f, a), g, b);
      MatchingAppend(gx, Matching(rest, g, b), f, a);
      if fx != [] {
        assert fx[1..] == [];
      }
      if gx != [] {
        assert gx[1..] == [];
      }
    }
  }
}
