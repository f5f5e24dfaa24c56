/** The ledger table of the Firefly III export: a raw CSV record, the
    normalised row the dashboard works on, dates and month buckets. */
module Ledger {
  import opened Order

  datatype Option<+T> = None | Some(value: T)

  /** A calendar date (`datetime.date`). */
  datatype Date = Date(year: int, month: int, day: int)

  /** A parsed timestamp: the date and the time of day in seconds. The loader
      keeps the time of day; only the date-range filters look at the date. */
  datatype DateTime = DateTime(date: Date, seconds: int)

  /** The monthly period a date falls into; pandas renders it as "YYYY-MM". */
  datatype YearMonth = YearMonth(year: int, month: int)

  /** One CSV record as read: the date and amount still text, the category
      and the type possibly missing (an empty cell, which pandas reads as
      NaN). */
  datatype RawRow = RawRow(date: string, amount: string, category: Option<string>, kind: Option<string>, description: string)

  /** One row of the loaded table. `amount` is None where the CSV value was
      not numeric (pandas' NaN); `kind` is the `type` column, None where the
      cell was empty. */
  datatype Row = Row(at: DateTime, month: YearMonth, amount: Option<int>, category: string, kind: Option<string>, description: string)

  const DEPOSIT: string := "Deposit"
  const WITHDRAWAL: string := "Withdrawal"
  const UNCATEGORIZED: string := "Uncategorized"

  function MonthOf(d: Date): YearMonth {
    YearMonth(d.year, d.month)
  }

  /** The invariants every loaded row satisfies. */
  predicate WellFormed(r: Row) {
    && r.month == MonthOf(r.at.date)
    && (r.amount.Some? ==> r.amount.value >= 0)
  }

  /** Comparison of calendar dates, as `datetime.date` compares them. */
  predicate DateLe(a: Date, b: Date) {
    a.year < b.year
    || (a.year == b.year && (a.month < b.month || (a.month == b.month && a.day <= b.day)))
  }

  /** Strict order of timestamps: by date, then by time of day. */
  predicate StampLt(a: DateTime, b: DateTime) {
    (DateLe(a.date, b.date) && a.date != b.date)
    || (a.date == b.date && a.seconds < b.seconds)
  }

  /** Order of month buckets; for four-digit years it is the order of their
      "YYYY-MM" strings. */
  predicate MonthLt(a: YearMonth, b: YearMonth) {
    a.year < b.year || (a.year == b.year && a.month < b.month)
  }

  lemma StampLtIsStrictTotalOrder()
    ensures StrictTotalOrder(StampLt)
  {
  }

  lemma MonthLtIsStrictTotalOrder()
    ensures StrictTotalOrder(MonthLt)
  {
  }

  /** Column accessors, used as group-by and filter keys. */
  function CategoryOf(r: Row): string { r.category }
  function KindOf(r: Row): Option<string> { r.kind }
  function MonthOfRow(r: Row): YearMonth { r.month }
  function StampOf(r: Row): DateTime { r.at }

  /** What an amount adds to a pandas `sum`: NaN adds nothing. */
  function SumTerm(amount: Option<int>): int {
    match amount
    case Some(v) => v
    case None => 0
  }

  function AmountOf(r: Row): int { SumTerm(r.amount) }

  /** pandas' `sum` of the amount column: missing amounts are skipped. */
  function Total(rows: seq<Row>): int {
    if rows == [] then 0 else AmountOf(rows[0]) + Total(rows[1..])
  }

  /** pandas' `count` of the amount column: rows with a numeric amount. */
  function NumericCount(rows: seq<Row>): (n: nat)
    ensures n <= |rows|
  {
    if rows == [] then 0 else (if rows[0].amount.Some? then 1 else 0) + NumericCount(rows[1..])
  }

  lemma {:induction false} TotalAppend(a: seq<Row>, b: seq<Row>)
    ensures Total(a + b) == Total(a) + Total(b)
  {
    if a == [] {
      assert a + b == b;
    } else {
      assert (a + b)[1..] == a[1..] + b;
      TotalAppend(a[1..], b);
    }
  }

  lemma {:induction false} TotalNonNegative(rows: seq<Row>)
    requires forall r :: r in rows ==> WellFormed(r)
    ensures Total(rows) >= 0
  {
    if rows != [] {
      assert rows[0] in rows;
      TotalNonNegative(rows[1..]);
    }
  }

  /** When every amount is numeric, `count` is the number of rows. */
  lemma {:induction false} NumericCountAllNumeric(rows: seq<Row>)
    requires forall r :: r in rows ==> r.amount.Some?
    ensures NumericCount(rows) == |rows|
  {
    if rows != [] {
      assert rows[0] in rows;
      NumericCountAllNumeric(rows[1..]);
    }
  }
}
