/** `get_transactions` (firefly_dashboard.py:119-122) and its call from the
    Transaction Details tab (lines 227-230, 237-239): the rows of one month,
    of one category or of all of them, latest first, with the columns
    date, description, amount and type. */
module Lookup {
  import opened Ledger
  import opened Order
  import opened Sorting
  import opened Filters

  /** The category argument. `main` passes either a name or, for "All", the
      category column itself, which compares equal to itself on every row. */
  datatype CategorySel = All | Only(name: string)

  predicate Picks(sel: CategorySel, r: Row) {
    match sel
    case All => true
    case Only(c) => r.category == c
  }

  /** One line of the result: the four columns `get_transactions` keeps. */
  datatype Txn = Txn(at: DateTime, description: string, amount: Option<int>, kind: Option<string>)

  function Project(r: Row): Txn {
    Txn(r.at, r.description, r.amount, r.kind)
  }

  /** The mask `(df['category'] == category) & (df['month'] == month)`, in
      table order, projected on the four columns. */
  function Candidates(rows: seq<Row>, sel: CategorySel, m: YearMonth): (out: seq<Txn>)
    ensures |out| <= |rows|
  {
    if rows == [] then []
    else
      (if Picks(sel, rows[0]) && rows[0].month == m then [Project(rows[0])] else [])
      + Candidates(rows[1..], sel, m)
  }

  /** `sort_values('date', ascending=False)`: no line is earlier than a
      line after it. */
  predicate LaterFirst(a: Txn, b: Txn) {
    !StampLt(a.at, b.at)
  }

  lemma LaterFirstIsTotalPreorder()
    ensures TotalPreorder(LaterFirst)
  {
    StampLtIsStrictTotalOrder();
  }

  /** `get_transactions(df, category, month)`: the selected rows of the month,
      latest first. */
  function Transactions(rows: seq<Row>, sel: CategorySel, m: YearMonth): (txns: seq<Txn>)
    ensures multiset(txns) == multiset(Candidates(rows, sel, m))
    ensures forall i, j :: 0 <= i < j < |txns| ==> !StampLt(txns[i].at, txns[j].at)
  {
    LaterFirstIsTotalPreorder();
    var txns := SortBy(Candidates(rows, sel, m), LaterFirst);
    assert forall i, j :: 0 <= i < j < |txns| ==> LaterFirst(txns[i], txns[j]);
    txns
  }

  /** A line is in the result exactly when it is the projection of a row of
      month `m` that the category argument picks. */
  lemma {:induction false} CandidatesMembership(rows: seq<Row>, sel: CategorySel, m: YearMonth)
    ensures forall t :: t in Candidates(rows, sel, m) <==>
      exists r :: r in rows && Picks(sel, r) && r.month == m && Project(r) == t
  {
    if rows != [] {
      CandidatesMembership(rows[1..], sel, m);
      assert forall r :: r in rows <==> r == rows[0] || r in rows[1..];
    }
  }

  lemma TransactionsMembership(rows: seq<Row>, sel: CategorySel, m: YearMonth)
    ensures forall t :: t in Transactions(rows, sel, m) <==>
      exists r :: r in rows && Picks(sel, r) && r.month == m && Project(r) == t
  {
    CandidatesMembership(rows, sel, m);
    forall t ensures t in Transactions(rows, sel, m) <==> t in Candidates(rows, sel, m) {
      assert t in multiset(Transactions(rows, sel, m)) <==> t in multiset(Candidates(rows, sel, m));
    }
  }

  /** With "All" every row of the month is listed, one line per row. */
  lemma AllListsWholeMonth(rows: seq<Row>, m: YearMonth)
    ensures |Transactions(rows, All, m)| == |Matching(rows, MonthOfRow, m)|
    ensures forall r :: r in rows && r.month == m ==> Project(r) in Transactions(rows, All, m)
  {
    CandidatesLength(rows, m);
    TransactionsMembership(rows, All, m);
    forall r | r in rows && r.month == m ensures Project(r) in Transactions(rows, All, m) {
      assert Picks(All, r);
    }
  }

  lemma {:induction false} CandidatesLength(rows: seq<Row>, m: YearMonth)
    ensures |Candidates(rows, All, m)| == |Matching(rows, MonthOfRow, m)|
  {
    if rows != [] {
      CandidatesLength(rows[1..], m);
    }
  }

  /** A single category's lines are among the "All" lines of the month. */
  lemma OnlyWithinAll(rows: seq<Row>, c: string, m: YearMonth)
    ensures multiset(Transactions(rows, Only(c), m)) <= multiset(Transactions(rows, All, m))
  {
    CandidatesWithinAll(rows, c, m);
  }

  lemma {:induction false} CandidatesWithinAll(rows: seq<Row>, c: string, m: YearMonth)
    ensures multiset(Candidates(rows, Only(c), m)) <= multiset(Candidates(rows, All, m))
  {
    if rows != [] {
      CandidatesWithinAll(rows[1..], c, m);
    }
  }

  /** `transactions['amount'].sum()`. */
  function TxnTotal(txns: seq<Txn>): int {
    if txns == [] then 0 else SumTerm(txns[0].amount) + TxnTotal(txns[1..])
  }

  lemma {:induction false} TxnTotalAppend(a: seq<Txn>, b: seq<Txn>)
    ensures TxnTotal(a + b) == TxnTotal(a) + TxnTotal(b)
  {
    if a == [] {
      assert a + b == b;
    } else {
      assert (a + b)[1..] == a[1..] + b;
      TxnTotalAppend(a[1..], b);
    }
  }

  /** Taking line `k` out of a listing takes its amount out of the sum. */
  lemma TxnTotalRemove(b: seq<Txn>, k: nat)
    requires k < |b|
    ensures TxnTotal(b) == SumTerm(b[k].amount) + TxnTotal(b[..k] + b[k + 1..])
  {
    assert b == b[..k] + b[k..];
    TxnTotalAppend(b[..k], b[k..]);
    assert b[k..][0] == b[k] && b[k..][1..] == b[k + 1..];
    TxnTotalAppend(b[..k], b[k + 1..]);
  }

  lemma RemoveAtMultiset(b: seq<Txn>, k: nat)
    requires k < |b|
    ensures multiset(b[..k] + b[k + 1..]) == multiset(b) - multiset{b[k]}
  {
    var front, back := b[..k], b[k + 1..];
    assert b == front + [b[k]] + back;
    assert multiset(b) == multiset(front) + multiset{b[k]} + multiset(back);
  }

  /** Reordering the lines does not change their sum. */
  lemma {:induction false} TxnTotalPermutation(a: seq<Txn>, b: seq<Txn>)
    requires multiset(a) == multiset(b)
    ensures TxnTotal(a) == TxnTotal(b)
  {
    if a != [] {
      assert a[0] in multiset(b);
      var k :| 0 <= k < |b| && b[k] == a[0];
      TxnTotalRemove(b, k);
      RemoveAtMultiset(b, k);
      assert a == [a[0]] + a[1..];
      assert multiset(a[1..]) == multiset(a) - multiset{a[0]};
      TxnTotalPermutation(a[1..], b[..k] + b[k + 1..]);
    }
  }

  lemma {:induction false} CandidatesTotal(rows: seq<Row>, m: YearMonth)
    ensures TxnTotal(Candidates(rows, All, m)) == Total(Matching(rows, MonthOfRow, m))
  {
    if rows != [] {
      CandidatesTotal(rows[1..], m);
      var head := if rows[0].month == m then [Project(rows[0])] else [];
      var matched := Matching(rows[1..], MonthOfRow, m);
      TxnTotalAppend(head, Candidates(rows[1..], All, m));
      if head != [] {
        assert head[1..] == [];
        assert Matching(rows, MonthOfRow, m) == [rows[0]] + matched;
        assert ([rows[0]] + matched)[1..] == matched;
      } else {
        assert Matching(rows, MonthOfRow, m) == matched;
      }
    }
  }

  /** The summary line of the tab for "All": the total of the listed
      amounts is the month's total, and the number of transactions is the
      month's number of rows. */
  lemma MonthSummary(rows: seq<Row>, m: YearMonth)
    ensures TxnTotal(Transactions(rows, All, m)) == Total(Matching(rows, MonthOfRow, m))
    ensures |Transactions(rows, All, m)| == |Matching(rows, MonthOfRow, m)|
  {
    CandidatesTotal(rows, m);
    TxnTotalPermutation(Transactions(rows, All, m), Candidates(rows, All, m));
    AllListsWholeMonth(rows, m);
  }
}
