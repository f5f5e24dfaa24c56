/** `create_overview` (firefly_dashboard.py:74-82): total income, total
    expenses and net savings over a date range, all categories. */
module Overview {
  import opened Ledger
  import opened Filters

  datatype Totals = Totals(income: int, expense: int, net: int)

  /** Income sums the `Deposit` rows in range, expenses the `Withdrawal` rows
      in range; net savings is their difference. */
  function TotalsIn(rows: seq<Row>, start: Date, end: Date): (t: Totals)
    ensures t.net == t.income - t.expense
  {
    var inRange := InRangeRows(rows, start, end);
    var income := Total(OfKind(inRange, DEPOSIT));
    var expense := Total(OfKind(inRange, WITHDRAWAL));
    Totals(income, expense, income - expense)
  }

  /** Reference definition: the amounts of `kind` in range, added row by row. */
  function KindSum(rows: seq<Row>, kind: string, start: Date, end: Date): int {
    if rows == [] then 0
    else
      (if InRange(rows[0], start, end) && rows[0].kind == Some(kind) then AmountOf(rows[0]) else 0)
      + KindSum(rows[1..], kind, start, end)
  }

  lemma {:induction false} FilteredTotalIsKindSum(rows: seq<Row>, kind: string, start: Date, end: Date)
    ensures Total(OfKind(InRangeRows(rows, start, end), kind)) == KindSum(rows, kind, start, end)
  {
    if rows != [] {
      FilteredTotalIsKindSum(rows[1..], kind, start, end);
      var head := if InRange(rows[0], start, end) then [rows[0]] else [];
      var rest := InRangeRows(rows[1..], start, end);
      assert InRangeRows(rows, start, end) == head + rest;
      MatchingAppend(head, rest, KindOf, Some(kind));
      TotalAppend(Matching(head, KindOf, Some(kind)), Matching(rest, KindOf, Some(kind)));
      if head != [] {
        assert head[1..] == [];
      }
    }
  }

  /** The overview is the row-by-row sum of deposits and of withdrawals in
      range. */
  lemma OverviewIsRowwiseSum(rows: seq<Row>, start: Date, end: Date)
    ensures TotalsIn(rows, start, end).income == KindSum(rows, DEPOSIT, start, end)
    ensures TotalsIn(rows, start, end).expense == KindSum(rows, WITHDRAWAL, start, end)
  {
    FilteredTotalIsKindSum(rows, DEPOSIT, start, end);
    FilteredTotalIsKindSum(rows, WITHDRAWAL, start, end);
  }

  lemma {:induction false} KindSumAppend(a: seq<Row>, b: seq<Row>, kind: string, start: Date, end: Date)
    ensures KindSum(a + b, kind, start, end) == KindSum(a, kind, start, end) + KindSum(b, kind, start, end)
  {
    if a == [] {
      assert a + b == b;
    } else {
      assert (a + b)[0] == a[0] && (a + b)[1..] == a[1..] + b;
      KindSumAppend(a[1..], b, kind, start, end);
    }
  }

  /** The overview is additive over a split of the table. */
  lemma OverviewAppend(a: seq<Row>, b: seq<Row>, start: Date, end: Date)
    ensures var t, ta, tb := TotalsIn(a + b, start, end), TotalsIn(a, start, end), TotalsIn(b, start, end);
      t.income == ta.income + tb.income && t.expense == ta.expense + tb.expense && t.net == ta.net + tb.net
  {
    OverviewIsRowwiseSum(a + b, start, end);
    OverviewIsRowwiseSum(a, start, end);
    OverviewIsRowwiseSum(b, start, end);
    KindSumAppend(a, b, DEPOSIT, start, end);
    KindSumAppend(a, b, WITHDRAWAL, start, end);
  }

  /** A row that is neither a deposit nor a withdrawal, or has no type,
      counts in neither total. */
  lemma OtherKindsIgnored(a: seq<Row>, x: Row, b: seq<Row>, start: Date, end: Date)
    requires x.kind != Some(DEPOSIT) && x.kind != Some(WITHDRAWAL)
    ensures TotalsIn(a + [x] + b, start, end) == TotalsIn(a + b, start, end)
  {
    OverviewIsRowwiseSum(a + [x] + b, start, end);
    OverviewIsRowwiseSum(a + b, start, end);
    KindSumSkips(a, x, b, DEPOSIT, start, end);
    KindSumSkips(a, x, b, WITHDRAWAL, start, end);
  }

  lemma KindSumSkips(a: seq<Row>, x: Row, b: seq<Row>, kind: string, start: Date, end: Date)
    requires x.kind != Some(kind)
    ensures KindSum(a + [x] + b, kind, start, end) == KindSum(a + b, kind, start, end)
  {
    KindSumAppend(a + [x], b, kind, start, end);
    KindSumAppend(a, [x], kind, start, end);
    KindSumAppend(a, b, kind, start, end);
    assert KindSum([x], kind, start, end) == 0 by {
      assert [x][1..] == [];
    }
  }

  lemma {:induction false} KindSumIgnoresCategory(rows: seq<Row>, other: seq<Row>, kind: string, start: Date, end: Date)
    requires |other| == |rows|
    requires forall i :: 0 <= i < |rows| ==> other[i].(category := rows[i].category) == rows[i]
    ensures KindSum(other, kind, start, end) == KindSum(rows, kind, start, end)
  {
    if rows != [] {
      assert other[0].(category := rows[0].category) == rows[0];
      KindSumIgnoresCategory(rows[1..], other[1..], kind, start, end);
    }
  }

  /** The overview does not consult the category column: relabelling rows
      leaves every total unchanged. */
  lemma OverviewIgnoresCategory(rows: seq<Row>, other: seq<Row>, start: Date, end: Date)
    requires |other| == |rows|
    requires forall i :: 0 <= i < |rows| ==> other[i].(category := rows[i].category) == rows[i]
    ensures TotalsIn(other, start, end) == TotalsIn(rows, start, end)
  {
    OverviewIsRowwiseSum(rows, start, end);
    OverviewIsRowwiseSum(other, start, end);
    KindSumIgnoresCategory(rows, other, DEPOSIT, start, end);
    KindSumIgnoresCategory(rows, other, WITHDRAWAL, start, end);
  }

  /** A range that ends before it starts gives 0, 0, 0. */
  lemma EmptyRangeGivesZero(rows: seq<Row>, start: Date, end: Date)
    requires !DateLe(start, end)
    ensures TotalsIn(rows, start, end) == Totals(0, 0, 0)
  {
    EmptyRangeSelectsNothing(rows, start, end);
  }

  /** On loaded rows (amounts are absolute values) both totals are
      non-negative. */
  lemma TotalsNonNegative(rows: seq<Row>, start: Date, end: Date)
    requires forall r :: r in rows ==> WellFormed(r)
    ensures TotalsIn(rows, start, end).income >= 0 && TotalsIn(rows, start, end).expense >= 0
  {
    var inRange := InRangeRows(rows, start, end);
    TotalNonNegative(OfKind(inRange, DEPOSIT));
    TotalNonNegative(OfKind(inRange, WITHDRAWAL));
  }

  /** Two lunches and a salary in January: income 500, expenses 150, net 350. */
  lemma JanuaryExample()
    ensures var jan5, jan10, jan15 := Date(2024, 1, 5), Date(2024, 1, 10), Date(2024, 1, 15);
      var rows := [
        Row(DateTime(jan5, 0), YearMonth(2024, 1), Some(100), "Food", Some(WITHDRAWAL), ""),
        Row(DateTime(jan10, 0), YearMonth(2024, 1), Some(50), "Food", Some(WITHDRAWAL), ""),
        Row(DateTime(jan15, 0), YearMonth(2024, 1), Some(500), "Salary", Some(DEPOSIT), "")];
      TotalsIn(rows, Date(2024, 1, 1), Date(2024, 1, 31)) == Totals(500, 150, 350)
  {
    var jan5, jan10, jan15 := Date(2024, 1, 5), Date(2024, 1, 10), Date(2024, 1, 15);
    var rows := [
      Row(DateTime(jan5, 0), YearMonth(2024, 1), Some(100), "Food", Some(WITHDRAWAL), ""),
      Row(DateTime(jan10, 0), YearMonth(2024, 1), Some(50), "Food", Some(WITHDRAWAL), ""),
      Row(DateTime(jan15, 0), YearMonth(2024, 1), Some(500), "Salary", Some(DEPOSIT), "")];
    var start, end := Date(2024, 1, 1), Date(2024, 1, 31);
    OverviewIsRowwiseSum(rows, start, end);
    assert rows[1..][1..][1..] == [];
    assert KindSum(rows[1..][1..], DEPOSIT, start, end) == 500;
    assert KindSum(rows[1..], DEPOSIT, start, end) == 500;
    assert KindSum(rows, DEPOSIT, start, end) == 500;
    assert KindSum(rows[1..][1..], WITHDRAWAL, start, end) == 0;
    assert KindSum(rows[1..], WITHDRAWAL, start, end) == 50;
    assert KindSum(rows, WITHDRAWAL, start, end) == 150;
  }
}
