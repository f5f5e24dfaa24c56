/** Row normalisation of `load_data` (firefly_dashboard.py:10-27). Reading the
    CSV is outside the model: the loader starts from the records read. The
    date parser (`dateutil.parser.parse` with the time zone dropped, or NaT
    when it raises) and `pd.to_numeric(errors='coerce')` are parameters: each
    is a total function returning None where the source yields NaT or NaN. */
module Loader {
  import opened Ledger

  function Abs(v: int): (a: int)
    ensures a >= 0 && (a == v || a == -v)
  {
    if v < 0 then -v else v
  }

  /** The column rewrites of `load_data` applied to one record whose date
      parsed to `at`: month bucket, absolute amount, default category. */
  function Normalize(raw: RawRow, at: DateTime, toNumber: string -> Option<int>): (r: Row)
    ensures WellFormed(r)
    ensures r.at == at && r.kind == raw.kind && r.description == raw.description
    ensures raw.category.Some? ==> r.category == raw.category.value
    ensures raw.category.None? ==> r.category == UNCATEGORIZED
    ensures r.amount.Some? <==> toNumber(raw.amount).Some?
    ensures r.amount.Some? ==> r.amount.value == Abs(toNumber(raw.amount).value)
  {
    var amount := match toNumber(raw.amount)
      case Some(v) => Some(Abs(v))
      case None => None;
    var category := match raw.category
      case Some(c) => c
      case None => UNCATEGORIZED;
    Row(at, MonthOf(at.date), amount, category, raw.kind, raw.description)
  }

  /** `load_data`: records whose date does not parse are dropped; the others
      are normalised and keep their order. */
  function Load(raw: seq<RawRow>, parse: string -> Option<DateTime>, toNumber: string -> Option<int>): (rows: seq<Row>)
    ensures |rows| <= |raw|
    ensures |rows| == |raw| <==> forall x :: x in raw ==> parse(x.date).Some?
    ensures forall r :: r in rows ==> WellFormed(r)
  {
    if raw == [] then []
    else
      var rest := Load(raw[1..], parse, toNumber);
      assert forall x :: x in raw <==> x == raw[0] || x in raw[1..];
      match parse(raw[0].date)
      case None => rest
      case Some(at) => [Normalize(raw[0], at, toNumber)] + rest
  }

  /** Every loaded row is the normalisation of a record whose date parsed to
      the row's timestamp, and every such record is loaded. */
  lemma {:induction false} LoadMembership(raw: seq<RawRow>, parse: string -> Option<DateTime>, toNumber: string -> Option<int>)
    ensures forall r :: r in Load(raw, parse, toNumber) ==>
      exists x :: x in raw && parse(x.date) == Some(r.at) && r == Normalize(x, r.at, toNumber)
    ensures forall x :: x in raw && parse(x.date).Some? ==>
      Normalize(x, parse(x.date).value, toNumber) in Load(raw, parse, toNumber)
  {
    if raw != [] {
      LoadMembership(raw[1..], parse, toNumber);
      assert forall x :: x in raw <==> x == raw[0] || x in raw[1..];
    }
  }

  /** Loading a concatenation loads each part: the retained rows keep the
      order of their records. */
  lemma {:induction false} LoadAppend(a: seq<RawRow>, b: seq<RawRow>, parse: string -> Option<DateTime>, toNumber: string -> Option<int>)
    ensures Load(a + b, parse, toNumber) == Load(a, parse, toNumber) + Load(b, parse, toNumber)
  {
    if a == [] {
      assert a + b == b;
    } else {
      assert (a + b)[0] == a[0] && (a + b)[1..] == a[1..] + b;
      LoadAppend(a[1..], b, parse, toNumber);
    }
  }

  /** A record whose date does not parse leaves no trace: the table is the
      one loaded without it, one row shorter than the input. */
  lemma LoadDropsUnparsed(a: seq<RawRow>, x: RawRow, b: seq<RawRow>, parse: string -> Option<DateTime>, toNumber: string -> Option<int>)
    requires parse(x.date).None?
    ensures Load(a + [x] + b, parse, toNumber) == Load(a + b, parse, toNumber)
  {
    var ax := Load(a + [x], parse, toNumber);
    LoadAppend(a + [x], b, parse, toNumber);
    LoadAppend(a, [x], parse, toNumber);
    LoadAppend(a, b, parse, toNumber);
    assert Load([x], parse, toNumber) == [] by {
      assert [x][1..] == [];
    }
    assert ax == Load(a, parse, toNumber) + [];
    assert Load(a, parse, toNumber) + [] == Load(a, parse, toNumber);
  }

  /** A record whose date parses becomes exactly one row, in its place. */
  lemma LoadKeepsParsed(a: seq<RawRow>, x: RawRow, b: seq<RawRow>, parse: string -> Option<DateTime>, toNumber: string -> Option<int>)
    requires parse(x.date).Some?
    ensures Load(a + [x] + b, parse, toNumber)
      == Load(a, parse, toNumber) + [Normalize(x, parse(x.date).value, toNumber)] + Load(b, parse, toNumber)
  {
    LoadAppend(a + [x], b, parse, toNumber);
    LoadAppend(a, [x], parse, toNumber);
    assert Load([x], parse, toNumber) == [Normalize(x, parse(x.date).value, toNumber)] by {
      assert [x][1..] == [];
    }
  }
}
