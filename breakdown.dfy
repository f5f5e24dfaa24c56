/** The grouped tables of firefly_dashboard.py: the (month, category) sums of
    the bar charts (`create_bar_charts`, lines 30-55), the category sums of
    the expense pie (`create_expense_pie_chart`, lines 58-69), the top-N
    ranking (`get_top_categories`, lines 102-116) and the per-category
    sum/mean/count tables of `main` (lines 201-216). */
module Breakdown {
  import opened Ledger
  import opened Order
  import opened Sorting
  import opened Filters
  import opened Grouping

  /** The key of `groupby(['month', 'category'])`. */
  datatype MonthCategory = MonthCategory(month: YearMonth, category: string)

  function MonthCategoryOf(r: Row): MonthCategory { MonthCategory(r.month, r.category) }

  /** The order of a two-column groupby index: by month, then by category. */
  predicate MonthCategoryLt(a: MonthCategory, b: MonthCategory) {
    MonthLt(a.month, b.month) || (a.month == b.month && StrLt(a.category, b.category))
  }

  lemma MonthCategoryLtIsStrictTotalOrder()
    ensures StrictTotalOrder(MonthCategoryLt)
  {
    StrLtIsStrictTotalOrder();
    MonthLtIsStrictTotalOrder();
  }

  /** The rows of type `kind` that pass the category-and-date mask. */
  function Qualifying(rows: seq<Row>, kind: string, cats: set<string>, start: Date, end: Date): (data: seq<Row>)
    ensures forall x :: x in data <==> x in rows && Selected(x, cats, start, end) && x.kind == Some(kind)
  {
    OfKind(FilterRows(rows, cats, start, end), kind)
  }

  /** Income bars: deposits of the selected categories in range, summed per
      (month, category), keys ascending. */
  function IncomeByMonth(rows: seq<Row>, cats: set<string>, start: Date, end: Date): (gs: seq<Group<MonthCategory>>)
    ensures IsGrouping(gs, Qualifying(rows, DEPOSIT, cats, start, end), MonthCategoryOf)
    ensures forall i, j :: 0 <= i < j < |gs| ==> MonthCategoryLt(gs[i].key, gs[j].key)
  {
    MonthCategoryLtIsStrictTotalOrder();
    GroupSums(Qualifying(rows, DEPOSIT, cats, start, end), MonthCategoryOf, MonthCategoryLt)
  }

  /** `sort_values(['month', 'amount'], ascending=[True, False])`: month
      ascending, then amount descending. */
  predicate MonthThenTotalDesc(a: Group<MonthCategory>, b: Group<MonthCategory>) {
    MonthLt(a.key.month, b.key.month) || (a.key.month == b.key.month && a.total >= b.total)
  }

  lemma MonthThenTotalDescIsTotalPreorder()
    ensures TotalPreorder(MonthThenTotalDesc)
  {
    MonthLtIsStrictTotalOrder();
  }

  /** Expense bars: withdrawals of the selected categories in range, summed
      per (month, category), ordered by month and, within a month, by
      decreasing total. The two-column sort is stable, so bars of one month
      with equal totals keep groupby's ascending category order. */
  function ExpensesByMonth(rows: seq<Row>, cats: set<string>, start: Date, end: Date): (gs: seq<Group<MonthCategory>>)
    ensures IsGrouping(gs, Qualifying(rows, WITHDRAWAL, cats, start, end), MonthCategoryOf)
    ensures forall i, j :: 0 <= i < j < |gs| ==>
      !MonthLt(gs[j].key.month, gs[i].key.month)
      && (gs[i].key.month == gs[j].key.month ==> gs[i].total >= gs[j].total)
    ensures forall i, j :: 0 <= i < j < |gs| && gs[i].key.month == gs[j].key.month && gs[i].total == gs[j].total ==>
      StrLt(gs[i].key.category, gs[j].key.category)
  {
    var data := Qualifying(rows, WITHDRAWAL, cats, start, end);
    ExpenseBarsOrdered(data);
    SortBy(GroupSums(data, MonthCategoryOf, MonthCategoryLt), MonthThenTotalDesc)
  }

  lemma ExpenseBarsOrdered(data: seq<Row>)
    ensures StrictTotalOrder(MonthCategoryLt) && TotalPreorder(MonthThenTotalDesc)
    ensures var gs := SortBy(GroupSums(data, MonthCategoryOf, MonthCategoryLt), MonthThenTotalDesc);
      && IsGrouping(gs, data, MonthCategoryOf)
      && (forall i, j :: 0 <= i < j < |gs| ==>
        !MonthLt(gs[j].key.month, gs[i].key.month)
        && (gs[i].key.month == gs[j].key.month ==> gs[i].total >= gs[j].total))
      && (forall i, j :: 0 <= i < j < |gs| && gs[i].key.month == gs[j].key.month && gs[i].total == gs[j].total ==>
        StrLt(gs[i].key.category, gs[j].key.category))
  {
    MonthCategoryLtIsStrictTotalOrder();
    MonthThenTotalDescIsTotalPreorder();
    var grouped := GroupSums(data, MonthCategoryOf, MonthCategoryLt);
    MonthOrderedIsGrouping(grouped, SortBy(grouped, MonthThenTotalDesc), data);
    MonthTiesByCategory(grouped);
  }

  /** Bars ordered by their (month, category) key. */
  predicate KeyBeforeInMonth(a: Group<MonthCategory>, b: Group<MonthCategory>) {
    MonthCategoryLt(a.key, b.key)
  }

  lemma MonthTiesByCategory(grouped: seq<Group<MonthCategory>>)
    requires forall i, j :: 0 <= i < j < |grouped| ==> MonthCategoryLt(grouped[i].key, grouped[j].key)
    ensures var gs := SortBy(grouped, MonthThenTotalDesc);
      forall i, j :: 0 <= i < j < |gs| && gs[i].key.month == gs[j].key.month && gs[i].total == gs[j].total ==>
        StrLt(gs[i].key.category, gs[j].key.category)
  {
    MonthThenTotalDescIsTotalPreorder();
    assert StrictlySorted(grouped, KeyBeforeInMonth);
    SortByStable(grouped, MonthThenTotalDesc, KeyBeforeInMonth);
    var gs := SortBy(grouped, MonthThenTotalDesc);
    forall i, j | 0 <= i < j < |gs| && gs[i].key.month == gs[j].key.month && gs[i].total == gs[j].total
      ensures StrLt(gs[i].key.category, gs[j].key.category)
    {
      assert MonthThenTotalDesc(gs[j], gs[i]);
      assert KeyBeforeInMonth(gs[i], gs[j]);
    }
  }

  lemma MonthOrderedIsGrouping(grouped: seq<Group<MonthCategory>>, gs: seq<Group<MonthCategory>>, data: seq<Row>)
    requires IsGrouping(grouped, data, MonthCategoryOf)
    requires multiset(gs) == multiset(grouped)
    requires SortedBy(gs, MonthThenTotalDesc)
    ensures IsGrouping(gs, data, MonthCategoryOf)
    ensures forall i, j :: 0 <= i < j < |gs| ==>
      !MonthLt(gs[j].key.month, gs[i].key.month)
      && (gs[i].key.month == gs[j].key.month ==> gs[i].total >= gs[j].total)
  {
    PermutationKeepsGrouping(grouped, gs, data, MonthCategoryOf);
    MonthOrdered(gs);
  }

  lemma MonthOrdered(gs: seq<Group<MonthCategory>>)
    requires SortedBy(gs, MonthThenTotalDesc)
    ensures forall i, j :: 0 <= i < j < |gs| ==>
      !MonthLt(gs[j].key.month, gs[i].key.month)
      && (gs[i].key.month == gs[j].key.month ==> gs[i].total >= gs[j].total)
  {
    forall i, j | 0 <= i < j < |gs|
      ensures !MonthLt(gs[j].key.month, gs[i].key.month)
      ensures gs[i].key.month == gs[j].key.month ==> gs[i].total >= gs[j].total
    {
      assert MonthThenTotalDesc(gs[i], gs[j]);
    }
  }

  /** The bars of each chart add up to the total of the rows it plots. */
  lemma BarsAddUp(rows: seq<Row>, cats: set<string>, start: Date, end: Date)
    ensures SumTotals(IncomeByMonth(rows, cats, start, end)) == Total(Qualifying(rows, DEPOSIT, cats, start, end))
    ensures SumTotals(ExpensesByMonth(rows, cats, start, end)) == Total(Qualifying(rows, WITHDRAWAL, cats, start, end))
  {
    GroupingPartitions(IncomeByMonth(rows, cats, start, end), Qualifying(rows, DEPOSIT, cats, start, end), MonthCategoryOf);
    GroupingPartitions(ExpensesByMonth(rows, cats, start, end), Qualifying(rows, WITHDRAWAL, cats, start, end), MonthCategoryOf);
  }

  /** Descending by total, ties allowed. */
  predicate ByTotalDesc(a: Group<string>, b: Group<string>) {
    a.total >= b.total
  }

  /** Groups ordered by category name. */
  predicate KeyBefore(a: Group<string>, b: Group<string>) {
    StrLt(a.key, b.key)
  }

  /** `groupby('category')['amount'].sum()` followed by a descending sort of
      the sums: one group per category, largest total first. */
  function RankByTotal(data: seq<Row>): (ranked: seq<Group<string>>)
    ensures IsGrouping(ranked, data, CategoryOf)
    ensures forall i, j :: 0 <= i < j < |ranked| ==> ranked[i].total >= ranked[j].total
    ensures |ranked| <= |data|
  {
    StrLtIsStrictTotalOrder();
    ByTotalDescIsTotalPreorder();
    var grouped := GroupSums(data, CategoryOf, StrLt);
    var ranked := SortBy(grouped, ByTotalDesc);
    RankedIsGrouping(grouped, ranked, data);
    ranked
  }

  lemma ByTotalDescIsTotalPreorder()
    ensures TotalPreorder(ByTotalDesc)
  {
  }

  lemma RankedIsGrouping(grouped: seq<Group<string>>, ranked: seq<Group<string>>, data: seq<Row>)
    requires IsGrouping(grouped, data, CategoryOf)
    requires multiset(ranked) == multiset(grouped) && |ranked| == |grouped|
    requires SortedBy(ranked, ByTotalDesc)
    ensures IsGrouping(ranked, data, CategoryOf)
    ensures forall i, j :: 0 <= i < j < |ranked| ==> ranked[i].total >= ranked[j].total
  {
    PermutationKeepsGrouping(grouped, ranked, data, CategoryOf);
    forall i, j | 0 <= i < j < |ranked| ensures ranked[i].total >= ranked[j].total {
      assert ByTotalDesc(ranked[i], ranked[j]);
    }
  }

  /** Categories with equal totals come in ascending name order: groupby
      lists the categories ascending and the descending sort keeps that
      order among ties, as `nlargest(keep='first')` does. */
  lemma RankByTotalTies(data: seq<Row>)
    ensures var ranked := RankByTotal(data);
      forall i, j :: 0 <= i < j < |ranked| && ranked[i].total == ranked[j].total ==>
        StrLt(ranked[i].key, ranked[j].key)
  {
    StrLtIsStrictTotalOrder();
    ByTotalDescIsTotalPreorder();
    var grouped := GroupSums(data, CategoryOf, StrLt);
    assert StrictlySorted(grouped, KeyBefore);
    SortByStable(grouped, ByTotalDesc, KeyBefore);
    var ranked := RankByTotal(data);
    forall i, j | 0 <= i < j < |ranked| && ranked[i].total == ranked[j].total
      ensures StrLt(ranked[i].key, ranked[j].key)
    {
      assert ByTotalDesc(ranked[j], ranked[i]);
      assert KeyBefore(ranked[i], ranked[j]);
    }
  }

  /** The rows of the expense pie: withdrawals of the selected categories in
      the month `m`, any day of it. */
  function PieRows(rows: seq<Row>, cats: set<string>, m: YearMonth): (out: seq<Row>)
    ensures forall x :: x in out <==> x in rows && x.category in cats && x.month == m && x.kind == Some(WITHDRAWAL)
    ensures |out| <= |rows|
  {
    if rows == [] then []
    else
      assert forall x :: x in rows <==> x == rows[0] || x in rows[1..];
      var x := rows[0];
      (if x.category in cats && x.month == m && x.kind == Some(WITHDRAWAL) then [x] else [])
      + PieRows(rows[1..], cats, m)
  }

  /** `create_expense_pie_chart`: the slices are the month's expenses per
      selected category, largest first. */
  function ExpenseDistribution(rows: seq<Row>, cats: set<string>, m: YearMonth): (slices: seq<Group<string>>)
    ensures IsGrouping(slices, PieRows(rows, cats, m), CategoryOf)
    ensures forall i, j :: 0 <= i < j < |slices| ==> slices[i].total >= slices[j].total
  {
    RankByTotal(PieRows(rows, cats, m))
  }

  /** The slices add up to the month's expenses in the selected categories,
      and each selected category with an expense that month has a slice. */
  lemma PieCoversMonth(rows: seq<Row>, cats: set<string>, m: YearMonth)
    ensures SumTotals(ExpenseDistribution(rows, cats, m)) == Total(PieRows(rows, cats, m))
    ensures forall x :: x in rows && x.category in cats && x.month == m && x.kind == Some(WITHDRAWAL) ==>
      exists i :: 0 <= i < |ExpenseDistribution(rows, cats, m)| && ExpenseDistribution(rows, cats, m)[i].key == x.category
  {
    var slices := ExpenseDistribution(rows, cats, m);
    GroupingPartitions(slices, PieRows(rows, cats, m), CategoryOf);
    forall x | x in rows && x.category in cats && x.month == m && x.kind == Some(WITHDRAWAL)
      ensures exists i :: 0 <= i < |slices| && slices[i].key == x.category
    {
      assert x in PieRows(rows, cats, m);
      assert CategoryOf(x) == x.category;
    }
  }

  /** `get_top_categories`' choice of type: "Income" selects deposits, any
      other value withdrawals. */
  function KindFor(categoryType: string): (kind: string)
    ensures kind == DEPOSIT || kind == WITHDRAWAL
    ensures kind == DEPOSIT <==> categoryType == "Income"
  {
    if categoryType == "Income" then DEPOSIT else WITHDRAWAL
  }

  /** The first `n` elements, or all of them when there are fewer. */
  function Take<T>(s: seq<T>, n: nat): (r: seq<T>)
    ensures |r| <= n && |r| <= |s|
    ensures |r| == n || |r| == |s|
    ensures r == s[..|r|]
  {
    if n < |s| then s[..n] else s
  }

  /** `get_top_categories`: the qualifying rows' categories ranked by total,
      the first `n` of them. */
  function TopCategories(rows: seq<Row>, categoryType: string, n: nat, start: Date, end: Date, cats: set<string>): (top: seq<Group<string>>)
    ensures |top| <= n
    ensures forall i, j :: 0 <= i < j < |top| ==> top[i].total >= top[j].total
  {
    var ranked := RankByTotal(Qualifying(rows, KindFor(categoryType), cats, start, end));
    var top := Take(ranked, n);
    PrefixNonIncreasing(ranked, top);
    top
  }

  lemma PrefixNonIncreasing(ranked: seq<Group<string>>, top: seq<Group<string>>)
    requires forall i, j :: 0 <= i < j < |ranked| ==> ranked[i].total >= ranked[j].total
    requires |top| <= |ranked| && top == ranked[..|top|]
    ensures forall i, j :: 0 <= i < j < |top| ==> top[i].total >= top[j].total
  {
    forall i, j | 0 <= i < j < |top| ensures top[i].total >= top[j].total {
      assert top[i] == ranked[i] && top[j] == ranked[j];
    }
  }

  /** Each listed category occurs once, has a qualifying row, and shows the
      sum of its qualifying rows. */
  ghost predicate SomeGroups(gs: seq<Group<string>>, data: seq<Row>) {
    && (forall i, j :: 0 <= i < j < |gs| ==> gs[i].key != gs[j].key)
    && (forall i :: 0 <= i < |gs| ==> Matching(data, CategoryOf, gs[i].key) != [])
    && (forall i :: 0 <= i < |gs| ==> gs[i].total == Total(Matching(data, CategoryOf, gs[i].key)))
  }

  lemma GroupingIsSomeGroups(gs: seq<Group<string>>, data: seq<Row>)
    requires IsGrouping(gs, data, CategoryOf)
    ensures SomeGroups(gs, data)
  {
  }

  /** The top-N rows are category groups of the qualifying rows; when fewer
      than `n` are listed, every qualifying category is listed. */
  lemma TopCategoriesAreGroups(rows: seq<Row>, categoryType: string, n: nat, start: Date, end: Date, cats: set<string>)
    ensures var data := Qualifying(rows, KindFor(categoryType), cats, start, end);
      var top := TopCategories(rows, categoryType, n, start, end, cats);
      && SomeGroups(top, data)
      && (|top| < n ==> forall x :: x in data ==> exists i :: 0 <= i < |top| && top[i].key == x.category)
  {
    var data := Qualifying(rows, KindFor(categoryType), cats, start, end);
    PrefixOfGrouping(RankByTotal(data), n, data);
  }

  lemma PrefixOfGrouping(ranked: seq<Group<string>>, n: nat, data: seq<Row>)
    requires IsGrouping(ranked, data, CategoryOf)
    ensures var top := Take(ranked, n);
      && SomeGroups(top, data)
      && (|top| < n ==> forall x :: x in data ==> exists i :: 0 <= i < |top| && top[i].key == x.category)
  {
    var top := Take(ranked, n);
    GroupingIsSomeGroups(ranked, data);
    PrefixSomeGroups(ranked, top, data);
    if |top| < n {
      assert top == ranked;
      GroupingCovers(ranked, data);
    }
  }

  lemma GroupingCovers(gs: seq<Group<string>>, data: seq<Row>)
    requires IsGrouping(gs, data, CategoryOf)
    ensures forall x :: x in data ==> exists i :: 0 <= i < |gs| && gs[i].key == x.category
  {
    forall x | x in data ensures exists i :: 0 <= i < |gs| && gs[i].key == x.category {
      var i :| 0 <= i < |gs| && gs[i].key == CategoryOf(x);
    }
  }

  lemma PrefixSomeGroups(ranked: seq<Group<string>>, top: seq<Group<string>>, data: seq<Row>)
    requires SomeGroups(ranked, data)
    requires |top| <= |ranked| && top == ranked[..|top|]
    ensures SomeGroups(top, data)
  {
    forall i | 0 <= i < |top| ensures top[i] == ranked[i] {
    }
  }

  /** The sum of the qualifying rows of category `c`. */
  function CategoryTotal(data: seq<Row>, c: string): int {
    Total(Matching(data, CategoryOf, c))
  }

  /** `nlargest`: a qualifying category left out of the top N has a total no
      larger than any listed one. */
  lemma TopCategoriesAreLargest(rows: seq<Row>, categoryType: string, n: nat, start: Date, end: Date, cats: set<string>, x: Row)
    requires x in Qualifying(rows, KindFor(categoryType), cats, start, end)
    requires forall i :: 0 <= i < |TopCategories(rows, categoryType, n, start, end, cats)| ==>
      TopCategories(rows, categoryType, n, start, end, cats)[i].key != x.category
    ensures forall i :: 0 <= i < |TopCategories(rows, categoryType, n, start, end, cats)| ==>
      CategoryTotal(Qualifying(rows, KindFor(categoryType), cats, start, end), x.category)
        <= TopCategories(rows, categoryType, n, start, end, cats)[i].total
  {
    var data := Qualifying(rows, KindFor(categoryType), cats, start, end);
    var ranked := RankByTotal(data);
    assert TopCategories(rows, categoryType, n, start, end, cats) == Take(ranked, n);
    RankedIsLargest(ranked, Take(ranked, n), data, x);
  }

  lemma RankedIsLargest(ranked: seq<Group<string>>, top: seq<Group<string>>, data: seq<Row>, x: Row)
    requires IsGrouping(ranked, data, CategoryOf)
    requires forall i, j :: 0 <= i < j < |ranked| ==> ranked[i].total >= ranked[j].total
    requires |top| <= |ranked| && top == ranked[..|top|]
    requires x in data
    requires forall i :: 0 <= i < |top| ==> top[i].key != x.category
    ensures forall i :: 0 <= i < |top| ==> CategoryTotal(data, x.category) <= top[i].total
  {
    var k := GroupOf(ranked, data, x);
    forall i | 0 <= i < |top| ensures ranked[i].key != ranked[k].key {
      assert top[i] == ranked[i];
    }
    PrefixIsLargest(ranked, top, k);
  }

  /** The position of the group of row `x`. */
  lemma GroupOf(ranked: seq<Group<string>>, data: seq<Row>, x: Row) returns (k: nat)
    requires IsGrouping(ranked, data, CategoryOf)
    requires x in data
    ensures k < |ranked| && ranked[k].key == x.category
    ensures ranked[k].total == CategoryTotal(data, x.category)
  {
    k :| 0 <= k < |ranked| && ranked[k].key == CategoryOf(x);
  }

  lemma PrefixIsLargest(ranked: seq<Group<string>>, top: seq<Group<string>>, k: nat)
    requires forall i, j :: 0 <= i < j < |ranked| ==> ranked[i].total >= ranked[j].total
    requires |top| <= |ranked| && top == ranked[..|top|]
    requires k < |ranked| && forall i :: 0 <= i < |top| ==> ranked[i].key != ranked[k].key
    ensures forall i :: 0 <= i < |top| ==> ranked[k].total <= top[i].total
  {
    if k < |top| {
      assert false;
    }
    forall i | 0 <= i < |top| ensures ranked[k].total <= top[i].total {
      assert top[i] == ranked[i];
    }
  }

  /** Raising N only appends: the top N is a prefix of the top N + 1. */
  lemma TopCategoriesPrefix(rows: seq<Row>, categoryType: string, n: nat, start: Date, end: Date, cats: set<string>)
    ensures var top, more := TopCategories(rows, categoryType, n, start, end, cats),
                             TopCategories(rows, categoryType, n + 1, start, end, cats);
      |top| <= |more| <= |top| + 1 && more[..|top|] == top
  {
  }

  /** Among the listed categories, equal totals are in ascending name order. */
  lemma TopCategoriesTies(rows: seq<Row>, categoryType: string, n: nat, start: Date, end: Date, cats: set<string>)
    ensures var top := TopCategories(rows, categoryType, n, start, end, cats);
      forall i, j :: 0 <= i < j < |top| && top[i].total == top[j].total ==> StrLt(top[i].key, top[j].key)
  {
    var data := Qualifying(rows, KindFor(categoryType), cats, start, end);
    var ranked := RankByTotal(data);
    RankByTotalTies(data);
    assert TopCategories(rows, categoryType, n, start, end, cats) == Take(ranked, n);
    PrefixTies(ranked, Take(ranked, n));
  }

  lemma PrefixTies(ranked: seq<Group<string>>, top: seq<Group<string>>)
    requires forall i, j :: 0 <= i < j < |ranked| && ranked[i].total == ranked[j].total ==> StrLt(ranked[i].key, ranked[j].key)
    requires |top| <= |ranked| && top == ranked[..|top|]
    ensures forall i, j :: 0 <= i < j < |top| && top[i].total == top[j].total ==> StrLt(top[i].key, top[j].key)
  {
    forall i, j | 0 <= i < j < |top| && top[i].total == top[j].total ensures StrLt(top[i].key, top[j].key) {
      assert top[i] == ranked[i] && top[j] == ranked[j];
    }
  }

  /** One row of an income or expense summary table: sum, mean and count of
      the category's amounts. The mean is None (NaN) when no amount is
      numeric. */
  datatype CategoryStats = CategoryStats(category: string, total: int, mean: Option<real>, count: nat)

  /** pandas' `mean`: the sum over the count of numeric amounts. */
  function Mean(total: int, count: nat): (m: Option<real>)
    ensures m.Some? <==> count > 0
    ensures m.Some? ==> m.value * count as real == total as real
  {
    if count == 0 then None else Some(total as real / count as real)
  }

  /** `s` aggregates the rows of `data` in its category: their sum, the
      number of numeric amounts, and the mean those two give. */
  ghost predicate StatsLine(s: CategoryStats, data: seq<Row>) {
    var inCategory := Matching(data, CategoryOf, s.category);
    && s.total == Total(inCategory)
    && s.count == NumericCount(inCategory)
    && s.mean == Mean(s.total, s.count)
  }

  function StatsOf(g: Group<string>, data: seq<Row>): CategoryStats {
    var count := NumericCount(Matching(data, CategoryOf, g.key));
    CategoryStats(g.key, g.total, Mean(g.total, count), count)
  }

  /** The summary tables of `main`: the qualifying rows of type `kind`
      aggregated per category with sum, mean and count, sorted by decreasing
      total. */
  function Summary(rows: seq<Row>, kind: string, cats: set<string>, start: Date, end: Date): (table: seq<CategoryStats>)
    ensures forall i :: 0 <= i < |table| ==> StatsLine(table[i], Qualifying(rows, kind, cats, start, end))
    ensures forall i, j :: 0 <= i < j < |table| ==> table[i].total >= table[j].total
  {
    var data := Qualifying(rows, kind, cats, start, end);
    var ranked := RankByTotal(data);
    var table := StatsTable(ranked, data);
    StatsTableLines(ranked, data, table);
    table
  }

  function StatsTable(ranked: seq<Group<string>>, data: seq<Row>): seq<CategoryStats> {
    seq(|ranked|, i requires 0 <= i < |ranked| => StatsOf(ranked[i], data))
  }

  lemma StatsTableLines(ranked: seq<Group<string>>, data: seq<Row>, table: seq<CategoryStats>)
    requires forall i :: 0 <= i < |ranked| ==> ranked[i].total == Total(Matching(data, CategoryOf, ranked[i].key))
    requires forall i, j :: 0 <= i < j < |ranked| ==> ranked[i].total >= ranked[j].total
    requires table == StatsTable(ranked, data)
    ensures forall i :: 0 <= i < |table| ==> StatsLine(table[i], data)
    ensures forall i, j :: 0 <= i < j < |table| ==> table[i].total >= table[j].total
  {
    forall i | 0 <= i < |table| ensures StatsLine(table[i], data) {
      assert table[i] == StatsOf(ranked[i], data);
    }
    forall i, j | 0 <= i < j < |table| ensures table[i].total >= table[j].total {
      assert table[i] == StatsOf(ranked[i], data) && table[j] == StatsOf(ranked[j], data);
    }
  }

  function GroupsOfStats(table: seq<CategoryStats>): seq<Group<string>> {
    seq(|table|, i requires 0 <= i < |table| => Group(table[i].category, table[i].total))
  }

  /** The summary has one line per qualifying category and its totals add up
      to the total of the qualifying rows. */
  lemma SummaryPartitions(rows: seq<Row>, kind: string, cats: set<string>, start: Date, end: Date)
    ensures var data := Qualifying(rows, kind, cats, start, end);
      var table := Summary(rows, kind, cats, start, end);
      && IsGrouping(GroupsOfStats(table), data, CategoryOf)
      && SumTotals(GroupsOfStats(table)) == Total(data)
  {
    var data := Qualifying(rows, kind, cats, start, end);
    var ranked := RankByTotal(data);
    var table := Summary(rows, kind, cats, start, end);
    assert table == StatsTable(ranked, data);
    assert GroupsOfStats(table) == ranked;
    GroupingPartitions(ranked, data, CategoryOf);
  }

  lemma {:induction false} MatchingNonEmptyCounted(data: seq<Row>, c: string)
    requires forall r :: r in data ==> r.amount.Some?
    requires Matching(data, CategoryOf, c) != []
    ensures NumericCount(Matching(data, CategoryOf, c)) >= 1
  {
    NumericCountAllNumeric(Matching(data, CategoryOf, c));
  }

  /** When every amount is numeric, each summary line counts at least one
      transaction and so has a mean. */
  lemma SummaryCountsPositive(rows: seq<Row>, kind: string, cats: set<string>, start: Date, end: Date)
    requires forall r :: r in rows ==> r.amount.Some?
    ensures forall i :: 0 <= i < |Summary(rows, kind, cats, start, end)| ==>
      Summary(rows, kind, cats, start, end)[i].count >= 1 && Summary(rows, kind, cats, start, end)[i].mean.Some?
  {
    var data := Qualifying(rows, kind, cats, start, end);
    var ranked := RankByTotal(data);
    var table := Summary(rows, kind, cats, start, end);
    forall i | 0 <= i < |table| ensures table[i].count >= 1 && table[i].mean.Some? {
      assert table[i] == StatsOf(ranked[i], data);
      MatchingNonEmptyCounted(data, ranked[i].key);
    }
  }

  lemma {:induction false} MatchingEverything(rows: seq<Row>, c: string)
    requires forall x :: x in rows ==> x.category == c
    ensures Matching(rows, CategoryOf, c) == rows
  {
    if rows != [] {
      assert rows[0] in rows;
      MatchingEverything(rows[1..], c);
      assert rows == [rows[0]] + rows[1..];
    }
  }

  /** When every qualifying row has category `c`, the ranking is that one
      category with the total of all qualifying rows. */
  lemma OneCategoryTop(rows: seq<Row>, categoryType: string, n: nat, start: Date, end: Date, cats: set<string>, c: string)
    requires n >= 1
    requires Qualifying(rows, KindFor(categoryType), cats, start, end) != []
    requires forall x :: x in Qualifying(rows, KindFor(categoryType), cats, start, end) ==> x.category == c
    ensures TopCategories(rows, categoryType, n, start, end, cats)
      == [Group(c, Total(Qualifying(rows, KindFor(categoryType), cats, start, end)))]
  {
    var data := Qualifying(rows, KindFor(categoryType), cats, start, end);
    OneGroup(RankByTotal(data), data, c);
  }

  lemma FirstTwoKeysDiffer(gs: seq<Group<string>>)
    requires |gs| > 1 && forall i, j :: 0 <= i < j < |gs| ==> gs[i].key != gs[j].key
    ensures gs[0].key != gs[1].key
  {
  }

  lemma OneGroup(ranked: seq<Group<string>>, data: seq<Row>, c: string)
    requires IsGrouping(ranked, data, CategoryOf)
    requires data != [] && forall x :: x in data ==> x.category == c
    ensures ranked == [Group(c, Total(data))]
  {
    MatchingEverything(data, c);
    assert data[0] in data;
    var k :| 0 <= k < |ranked| && ranked[k].key == CategoryOf(data[0]);
    if |ranked| > 1 {
      FirstTwoKeysDiffer(ranked);
      assert false;
    }
    assert ranked == [ranked[k]];
  }

  /** Two lunches and a salary in January, top five expense categories:
      one line, Food with 150. */
  lemma JanuaryTopExpenses()
    ensures var rows := [
        Row(DateTime(Date(2024, 1, 5), 0), YearMonth(2024, 1), Some(100), "Food", Some(WITHDRAWAL), ""),
        Row(DateTime(Date(2024, 1, 10), 0), YearMonth(2024, 1), Some(50), "Food", Some(WITHDRAWAL), ""),
        Row(DateTime(Date(2024, 1, 15), 0), YearMonth(2024, 1), Some(500), "Salary", Some(DEPOSIT), "")];
      TopCategories(rows, "Expenses", 5, Date(2024, 1, 1), Date(2024, 1, 31), {"Food", "Salary"}) == [Group("Food", 150)]
  {
    var r1 := Row(DateTime(Date(2024, 1, 5), 0), YearMonth(2024, 1), Some(100), "Food", Some(WITHDRAWAL), "");
    var r2 := Row(DateTime(Date(2024, 1, 10), 0), YearMonth(2024, 1), Some(50), "Food", Some(WITHDRAWAL), "");
    var r3 := Row(DateTime(Date(2024, 1, 15), 0), YearMonth(2024, 1), Some(500), "Salary", Some(DEPOSIT), "");
    var rows := [r1, r2, r3];
    var start, end, cats := Date(2024, 1, 1), Date(2024, 1, 31), {"Food", "Salary"};
    JanuaryExpenseRows();
    OneCategoryTop(rows, "Expenses", 5, start, end, cats, "Food");
  }

  lemma JanuaryExpenseRows()
    ensures var r1 := Row(DateTime(Date(2024, 1, 5), 0), YearMonth(2024, 1), Some(100), "Food", Some(WITHDRAWAL), "");
      var r2 := Row(DateTime(Date(2024, 1, 10), 0), YearMonth(2024, 1), Some(50), "Food", Some(WITHDRAWAL), "");
      var r3 := Row(DateTime(Date(2024, 1, 15), 0), YearMonth(2024, 1), Some(500), "Salary", Some(DEPOSIT), "");
      var data := Qualifying([r1, r2, r3], KindFor("Expenses"), {"Food", "Salary"}, Date(2024, 1, 1), Date(2024, 1, 31));
      data == [r1, r2] && Total(data) == 150
  {
    var r1 := Row(DateTime(Date(2024, 1, 5), 0), YearMonth(2024, 1), Some(100), "Food", Some(WITHDRAWAL), "");
    var r2 := Row(DateTime(Date(2024, 1, 10), 0), YearMonth(2024, 1), Some(50), "Food", Some(WITHDRAWAL), "");
    var r3 := Row(DateTime(Date(2024, 1, 15), 0), YearMonth(2024, 1), Some(500), "Salary", Some(DEPOSIT), "");
    var rows := [r1, r2, r3];
    var start, end, cats := Date(2024, 1, 1), Date(2024, 1, 31), {"Food", "Salary"};
    assert rows[1..][1..][1..] == [];
    assert "Food" in cats && "Salary" in cats;
    assert FilterRows(rows[1..][1..], cats, start, end) == [r3];
    assert FilterRows(rows[1..], cats, start, end) == [r2, r3];
    assert FilterRows(rows, cats, start, end) == rows;
    assert KindFor("Expenses") == WITHDRAWAL;
    assert Matching(rows[1..][1..], KindOf, Some(WITHDRAWAL)) == [];
    assert Matching(rows[1..], KindOf, Some(WITHDRAWAL)) == [r2];
    assert [r1, r2][1..] == [r2] && [r2][1..] == [];
    assert Total([r2]) == 50;
  }
}
