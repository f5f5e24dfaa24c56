/** The daily table behind `create_time_series` (firefly_dashboard.py:85-90):
    in-range rows grouped by timestamp and type, unstacked into a Deposit and
    a Withdrawal column with 0 for a missing combination, plus Net. The
    grouping key is the whole parsed timestamp, as in the source, so two
    rows of one day with different times of day give two entries. */
module Series {
  import opened Ledger
  import opened Order
  import opened Filters
  import opened Grouping
  import Overview

  datatype DayEntry = DayEntry(at: DateTime, deposit: int, withdrawal: int, net: int)

  /** Outcome of the source's code: pandas raises `KeyError` when the
      unstacked table lacks the Deposit or the Withdrawal column. */
  datatype SeriesResult = KeyError(column: string) | Daily(entries: seq<DayEntry>)

  /** The entry of timestamp `t` over the rows `rows`. */
  function EntryAt(rows: seq<Row>, t: DateTime): DayEntry {
    var deposit := Total(Matching(OfKind(rows, DEPOSIT), StampOf, t));
    var withdrawal := Total(Matching(OfKind(rows, WITHDRAWAL), StampOf, t));
    DayEntry(t, deposit, withdrawal, deposit - withdrawal)
  }

  function EntriesAt(rows: seq<Row>, ks: seq<DateTime>): seq<DayEntry> {
    seq(|ks|, i requires 0 <= i < |ks| => EntryAt(rows, ks[i]))
  }

  /** `e` holds, for its timestamp, the deposits and the withdrawals of
      `rows` at that timestamp (0 when there are none) and their difference. */
  ghost predicate SumsOfTimestamp(e: DayEntry, rows: seq<Row>) {
    var atT := Matching(rows, StampOf, e.at);
    && e.deposit == Total(OfKind(atT, DEPOSIT))
    && e.withdrawal == Total(OfKind(atT, WITHDRAWAL))
    && e.net == e.deposit - e.withdrawal
  }

  /** Some row in range with a type has timestamp `t`. */
  ghost predicate HasTypedRowAt(rows: seq<Row>, start: Date, end: Date, t: DateTime) {
    exists x :: x in rows && InRange(x, start, end) && x.kind.Some? && x.at == t
  }

  /** The daily series with the missing columns zero-filled: one entry per
      distinct timestamp among the rows in range that have a type (the
      groupby drops rows whose type is missing), ascending; Deposit and
      Withdrawal are the sums of that timestamp's rows of each type (0 when
      there are none) and Net is their difference. */
  function DailySeries(rows: seq<Row>, start: Date, end: Date): (entries: seq<DayEntry>)
    ensures forall i :: 0 <= i < |entries| ==> HasTypedRowAt(rows, start, end, entries[i].at)
    ensures forall x :: x in rows && InRange(x, start, end) && x.kind.Some? ==>
      exists i :: 0 <= i < |entries| && entries[i].at == x.at
    ensures forall i, j :: 0 <= i < j < |entries| ==> StampLt(entries[i].at, entries[j].at)
    ensures forall i :: 0 <= i < |entries| ==> SumsOfTimestamp(entries[i], InRangeRows(rows, start, end))
  {
    StampLtIsStrictTotalOrder();
    var inRange := InRangeRows(rows, start, end);
    var typed := Typed(inRange);
    var ks := GroupKeys(typed, StampOf, StampLt);
    var entries := EntriesAt(inRange, ks);
    EntriesHaveRows(rows, start, end, typed, ks, entries);
    RowsHaveEntries(rows, start, end, typed, ks, entries);
    EntriesColumns(inRange, ks, entries);
    entries
  }

  lemma EntriesHaveRows(rows: seq<Row>, start: Date, end: Date, typed: seq<Row>, ks: seq<DateTime>, entries: seq<DayEntry>)
    requires typed == Typed(InRangeRows(rows, start, end))
    requires forall i :: 0 <= i < |ks| ==> Matching(typed, StampOf, ks[i]) != []
    requires |entries| == |ks| && forall i :: 0 <= i < |ks| ==> entries[i].at == ks[i]
    ensures forall i :: 0 <= i < |entries| ==> HasTypedRowAt(rows, start, end, entries[i].at)
  {
    forall i | 0 <= i < |entries| ensures HasTypedRowAt(rows, start, end, entries[i].at) {
      var atT := Matching(typed, StampOf, ks[i]);
      var x := atT[0];
      assert x in atT;
      assert x in typed && StampOf(x) == ks[i];
      assert x in InRangeRows(rows, start, end) && x.kind.Some?;
      assert x in rows && InRange(x, start, end) && x.at == entries[i].at;
    }
  }

  lemma RowsHaveEntries(rows: seq<Row>, start: Date, end: Date, typed: seq<Row>, ks: seq<DateTime>, entries: seq<DayEntry>)
    requires typed == Typed(InRangeRows(rows, start, end))
    requires forall x :: x in typed ==> StampOf(x) in ks
    requires |entries| == |ks| && forall i :: 0 <= i < |ks| ==> entries[i].at == ks[i]
    ensures forall x :: x in rows && InRange(x, start, end) && x.kind.Some? ==>
      exists i :: 0 <= i < |entries| && entries[i].at == x.at
  {
    forall x | x in rows && InRange(x, start, end) && x.kind.Some?
      ensures exists i :: 0 <= i < |entries| && entries[i].at == x.at
    {
      assert x in InRangeRows(rows, start, end);
      assert x in typed;
      var i :| 0 <= i < |ks| && ks[i] == x.at;
      assert entries[i].at == x.at;
    }
  }

  lemma EntriesColumns(inRange: seq<Row>, ks: seq<DateTime>, entries: seq<DayEntry>)
    requires entries == EntriesAt(inRange, ks)
    ensures forall i :: 0 <= i < |entries| ==> SumsOfTimestamp(entries[i], inRange)
  {
    forall i | 0 <= i < |entries| ensures SumsOfTimestamp(entries[i], inRange) {
      MatchingCommute(inRange, KindOf, Some(DEPOSIT), StampOf, ks[i]);
      MatchingCommute(inRange, KindOf, Some(WITHDRAWAL), StampOf, ks[i]);
    }
  }

  /** Some row in range has type `kind`. */
  ghost predicate HasKindInRange(rows: seq<Row>, kind: string, start: Date, end: Date) {
    exists x :: x in rows && InRange(x, start, end) && x.kind == Some(kind)
  }

  lemma HasKindIffSelected(rows: seq<Row>, kind: string, start: Date, end: Date)
    ensures HasKindInRange(rows, kind, start, end) <==> OfKind(InRangeRows(rows, start, end), kind) != []
  {
    var selected := OfKind(InRangeRows(rows, start, end), kind);
    if selected != [] {
      assert selected[0] in selected;
      assert selected[0] in InRangeRows(rows, start, end);
    }
    if HasKindInRange(rows, kind, start, end) {
      var x :| x in rows && InRange(x, start, end) && x.kind == Some(kind);
      assert x in InRangeRows(rows, start, end);
      assert x in selected;
    }
  }

  /** The source as written: the Net column reads `daily_summary['Deposit']`
      and then `daily_summary['Withdrawal']`, and a column exists only if
      some row in range has that type. */
  function DailySeriesAsWritten(rows: seq<Row>, start: Date, end: Date): (r: SeriesResult)
    ensures r.KeyError? <==>
      !HasKindInRange(rows, DEPOSIT, start, end) || !HasKindInRange(rows, WITHDRAWAL, start, end)
    ensures r.KeyError? ==>
      r.column == if HasKindInRange(rows, DEPOSIT, start, end) then WITHDRAWAL else DEPOSIT
    ensures r.Daily? ==> r.entries == DailySeries(rows, start, end)
  {
    var inRange := InRangeRows(rows, start, end);
    var deposits, withdrawals := OfKind(inRange, DEPOSIT), OfKind(inRange, WITHDRAWAL);
    HasKindIffSelected(rows, DEPOSIT, start, end);
    HasKindIffSelected(rows, WITHDRAWAL, start, end);
    if deposits == [] then KeyError(DEPOSIT)
    else if withdrawals == [] then KeyError(WITHDRAWAL)
    else Daily(DailySeries(rows, start, end))
  }

  /** A month with one expense and no income: the source raises KeyError
      while the zero-filled series has one entry with Deposit 0. */
  lemma ExpenseOnlyMonthRaises()
    ensures var t := DateTime(Date(2024, 1, 5), 0);
      var rows := [Row(t, YearMonth(2024, 1), Some(100), "Food", Some(WITHDRAWAL), "")];
      && DailySeriesAsWritten(rows, Date(2024, 1, 1), Date(2024, 1, 31)) == KeyError(DEPOSIT)
      && DailySeries(rows, Date(2024, 1, 1), Date(2024, 1, 31)) == [DayEntry(t, 0, 100, -100)]
  {
    var t := DateTime(Date(2024, 1, 5), 0);
    var r := Row(t, YearMonth(2024, 1), Some(100), "Food", Some(WITHDRAWAL), "");
    var start, end := Date(2024, 1, 1), Date(2024, 1, 31);
    SingleRowSeries(r, start, end);
    assert [r][1..] == [];
    assert Matching([r], StampOf, t) == [r];
    assert OfKind([r], DEPOSIT) == [];
    assert OfKind([r], WITHDRAWAL) == [r];
    assert Total([r]) == 100;
  }

  /** A single typed row in range gives a series of one entry, at its
      timestamp. */
  lemma SingleRowSeries(r: Row, start: Date, end: Date)
    requires InRange(r, start, end) && r.kind.Some?
    ensures var es := DailySeries([r], start, end);
      |es| == 1 && es[0].at == r.at && SumsOfTimestamp(es[0], [r])
  {
    var es := DailySeries([r], start, end);
    assert r in [r];
    var i :| 0 <= i < |es| && es[i].at == r.at;
    forall j | 0 <= j < |es| ensures es[j].at == r.at {
      assert HasTypedRowAt([r], start, end, es[j].at);
    }
    if |es| > 1 {
      assert false;
    }
    assert InRangeRows([r], start, end) == [r] by {
      assert [r][1..] == [];
    }
  }

  /** The sum of one column of the series over all its entries. */
  function ColumnSum(es: seq<DayEntry>, column: DayEntry -> int): int {
    if es == [] then 0 else column(es[0]) + ColumnSum(es[1..], column)
  }

  /** The Deposit, Withdrawal and Net columns. */
  function DepositOf(e: DayEntry): int { e.deposit }
  function WithdrawalOf(e: DayEntry): int { e.withdrawal }
  function NetOf(e: DayEntry): int { e.net }

  lemma {:induction false} EntriesSumOver(rows: seq<Row>, ks: seq<DateTime>)
    ensures ColumnSum(EntriesAt(rows, ks), DepositOf) == SumOver(ks, OfKind(rows, DEPOSIT), StampOf)
    ensures ColumnSum(EntriesAt(rows, ks), WithdrawalOf) == SumOver(ks, OfKind(rows, WITHDRAWAL), StampOf)
    ensures ColumnSum(EntriesAt(rows, ks), NetOf)
      == ColumnSum(EntriesAt(rows, ks), DepositOf) - ColumnSum(EntriesAt(rows, ks), WithdrawalOf)
  {
    if ks != [] {
      assert EntriesAt(rows, ks)[1..] == EntriesAt(rows, ks[1..]);
      EntriesSumOver(rows, ks[1..]);
    }
  }

  /** Summed over the whole series, the Deposit, Withdrawal and Net columns
      give the overview's income, expenses and net savings for the same
      range. */
  lemma SeriesAddsUpToOverview(rows: seq<Row>, start: Date, end: Date)
    ensures var es, overview := DailySeries(rows, start, end), Overview.TotalsIn(rows, start, end);
      && ColumnSum(es, DepositOf) == overview.income
      && ColumnSum(es, WithdrawalOf) == overview.expense
      && ColumnSum(es, NetOf) == overview.net
  {
    StampLtIsStrictTotalOrder();
    var inRange := InRangeRows(rows, start, end);
    var typed := Typed(inRange);
    var ks := GroupKeys(typed, StampOf, StampLt);
    StrictlySortedHasNoDuplicates(ks, StampLt);
    EntriesSumOver(inRange, ks);
    forall x | x in OfKind(inRange, DEPOSIT) || x in OfKind(inRange, WITHDRAWAL) ensures StampOf(x) in ks {
      assert x in typed;
    }
    SumOverCovers(ks, OfKind(inRange, DEPOSIT), StampOf);
    SumOverCovers(ks, OfKind(inRange, WITHDRAWAL), StampOf);
  }

  /** A row whose type cell is empty is dropped by the groupby: alone in
      range, it gives an empty series, and it adds nothing to the overview's
      totals either. */
  lemma UntypedRowGivesNoEntry()
    ensures var rows := [Row(DateTime(Date(2024, 1, 5), 0), YearMonth(2024, 1), Some(100), "Food", None, "")];
      DailySeries(rows, Date(2024, 1, 1), Date(2024, 1, 31)) == []
  {
    var rows := [Row(DateTime(Date(2024, 1, 5), 0), YearMonth(2024, 1), Some(100), "Food", None, "")];
    var entries := DailySeries(rows, Date(2024, 1, 1), Date(2024, 1, 31));
    if entries != [] {
      assert false;
    }
  }
}
