# Firefly III dashboard: the data-transformation core

`firefly_dashboard.py` is a Streamlit dashboard over a CSV export of a
Firefly III ledger. Under the widgets and charts it is a small query engine
over an in-memory table of rows with the columns `date`, `amount`,
`category`, `type`, `description` and `month`. This project models that
engine in Dafny and proves what each query returns.

- **Loading** (`Loader`): records whose date does not parse are dropped. The
  rest get a year-month bucket, an absolute amount and a default category.
- **Masks** (`Filters`): category membership plus an inclusive date range,
  written out three times in the source and defined once here.
- **Overview** (`Overview`): income, expenses and net savings over a date
  range.
- **Daily series** (`Series`): Deposit, Withdrawal and Net per timestamp.
- **Grouped tables** (`Grouping`, `Breakdown`):
  - the (month, category) bars;
  - the expense pie;
  - the top-N ranking;
  - the per-category sum/mean/count summaries.
- **Transaction lookup** (`Lookup`): one month's rows for one category or
  for all of them, latest first.

`Order` and `Sorting` hold the orders pandas applies:
- the ascending, distinct keys of `groupby`;
- the sort behind `sort_values` and `nlargest`.

Amounts are integers (cents). A value that `pd.to_numeric(errors='coerce')`
turns into NaN is `None`: pandas' `sum` skips it and `count` does not count
it. The date parser (`dateutil.parser.parse` with the time zone dropped) and
the numeric conversion are parameters of the loader, of types
`string -> Option<DateTime>` and `string -> Option<int>`. A `type` cell
left empty is also read as NaN and is `None` here: it equals no type in the
masks, and the `groupby` of the daily series drops the row.

Three points where the code behaves differently from what a reader of the
dashboard might expect; the model follows the code:
- **The series key is the whole timestamp.** The date-range masks compare
  `df['date'].dt.date`, but `create_time_series` groups by the `date`
  column itself. That column holds the parsed timestamp, time of day
  included. So two rows of one day at different times give two entries,
  not one per calendar date.
- **No zero-fill.** The series does not fill in a missing Deposit or
  Withdrawal column with zeros: it raises (see Findings).
- **No percentage threshold or per-month average.** The source has no
  percentage-threshold filter for the pie and no "average per month". The
  summary's mean is pandas' mean per transaction.

## Model

| member | source | states |
|---|---|---|
| Ledger.NumericCount | firefly_dashboard.py:208 | pandas' `count` of the amount column counts at most one per row |
| Ledger.NumericCountAllNumeric | firefly_dashboard.py:208 | when every amount is numeric, `count` is the number of rows |
| Ledger.TotalAppend | firefly_dashboard.py:79 | pandas' `sum` of the amount column, NaN skipped, is additive over a split of the rows |
| Ledger.TotalNonNegative | firefly_dashboard.py:79 | on loaded rows, whose amounts are absolute values, the sum is at least 0 |
| Loader.Normalize | firefly_dashboard.py:21-25 | the row is well formed, meaning its month is the year-month of its date and any amount is >= 0. The timestamp, type and description are kept. The category is the record's, or "Uncategorized" when missing. The amount is present exactly when the text is numeric, and is then its absolute value |
| Loader.Load | firefly_dashboard.py:10-22 | no more rows than records. Exactly as many rows as records iff every date parses. Every row is well formed |
| Loader.LoadMembership | firefly_dashboard.py:21-25 | every loaded row is the normalisation of a record whose date parsed to its timestamp, and every such record is loaded |
| Loader.LoadAppend | firefly_dashboard.py:21-22 | loading a concatenation loads each part, so retained rows keep their order |
| Loader.LoadDropsUnparsed | firefly_dashboard.py:13-22 | a record whose date does not parse leaves the table as if it were absent |
| Loader.LoadKeepsParsed | firefly_dashboard.py:21-25 | a record whose date parses becomes exactly one row, in its place |
| Filters.FilterRows | firefly_dashboard.py:31-36 | a row is kept iff its category is selected and its date lies in [start, end], both ends inclusive |
| Filters.InRangeRows | firefly_dashboard.py:75-76 | a row is kept iff its date lies in [start, end] |
| Filters.OfKind | firefly_dashboard.py:78 | a row is kept iff its type equals the given one; a missing type equals none |
| Filters.Typed | firefly_dashboard.py:89 | a row is kept by the groupby on the type column iff its type is present |
| Filters.FilterRowsAppend | firefly_dashboard.py:103-108 | the mask keeps row order: filtering a concatenation filters each part |
| Filters.FilterRowsIdempotent | firefly_dashboard.py:201-205 | applying the mask twice equals applying it once |
| Filters.NoCategoriesSelectNothing | firefly_dashboard.py:31-36 | an empty category selection selects no row |
| Filters.EmptyRangeSelectsNothing | firefly_dashboard.py:75-76 | a range whose start is after its end selects no row |
| Filters.MatchingCommute | firefly_dashboard.py:59-63 | two column-equality masks can be applied in either order |
| Overview.TotalsIn | firefly_dashboard.py:74-82 | net savings = income - expenses |
| Overview.OverviewIsRowwiseSum | firefly_dashboard.py:78-79 | income is the row-by-row sum of in-range Deposit amounts, and expenses that of Withdrawal amounts |
| Overview.OverviewAppend | firefly_dashboard.py:74-82 | all three figures are additive over a split of the table |
| Overview.OtherKindsIgnored | firefly_dashboard.py:78-79 | a row of any other type, or with no type, changes no figure |
| Overview.OverviewIgnoresCategory | firefly_dashboard.py:75 | relabelling categories changes no figure |
| Overview.EmptyRangeGivesZero | firefly_dashboard.py:75-82 | an empty range gives 0, 0, 0 |
| Overview.TotalsNonNegative | firefly_dashboard.py:78-79 | on loaded rows, income and expenses are >= 0 |
| Overview.JanuaryExample | firefly_dashboard.py:74-82 | two lunches of 100 and 50 plus a salary of 500 give 500, 150, 350 |
| Grouping.GroupKeys | firefly_dashboard.py:43 | the group keys are exactly the key values present, each once, in ascending order |
| Grouping.GroupSums | firefly_dashboard.py:43 | one group per distinct key present and none other, keys ascending. Each total is the sum of the rows with that key |
| Grouping.PermutationKeepsGrouping | firefly_dashboard.py:48-49 | reordering a grouped table (`sort_values`) leaves a grouping of the same rows |
| Grouping.GroupingPartitions | firefly_dashboard.py:43 | the group totals add up to the total of the grouped rows |
| Series.DailySeries | firefly_dashboard.py:85-90 | one entry per distinct timestamp among the in-range rows that have a type, strictly ascending. Each Deposit/Withdrawal is the sum of that timestamp's rows of that type, 0 when there are none. Net = Deposit - Withdrawal |
| Series.UntypedRowGivesNoEntry | firefly_dashboard.py:89 | a lone in-range row whose type cell is empty gives an empty series, since the groupby drops it |
| Series.DailySeriesAsWritten | firefly_dashboard.py:89-90 | the code as written fails with KeyError iff no in-range row is a Deposit or none is a Withdrawal. Deposit is reported first. Otherwise the result is the zero-filled series |
| Series.ExpenseOnlyMonthRaises | firefly_dashboard.py:89-90 | one January expense of 100 and no income: KeyError('Deposit') as written, and the single entry (0, 100, -100) when zero-filled |
| Series.SeriesAddsUpToOverview | firefly_dashboard.py:85-90 | summed over the series, the Deposit, Withdrawal and Net columns equal `Overview.TotalsIn`'s income, expenses and net for the same range |
| Breakdown.Qualifying | firefly_dashboard.py:38-39 | a row is kept iff it passes the category-and-date mask and has the given type |
| Breakdown.IncomeByMonth | firefly_dashboard.py:36-43 | income bars: one bar per (month, category) among the selected deposits in range, each summing its rows. Keys ascend by month, then category |
| Breakdown.ExpensesByMonth | firefly_dashboard.py:39-49 | expense bars: one bar per (month, category) among the selected withdrawals, each summing its rows. Ordered by month ascending, then total descending within a month. Bars of one month with equal totals are in ascending category order, since the two-column sort is stable |
| Breakdown.BarsAddUp | firefly_dashboard.py:43-48 | the bars of each chart add up to the total of the rows it plots |
| Breakdown.PieRows | firefly_dashboard.py:59-64 | a row is kept iff its category is selected, its month is m and it is a Withdrawal |
| Breakdown.RankByTotal | firefly_dashboard.py:66-67 | a grouping of the rows by category, with totals non-increasing and no more groups than rows |
| Breakdown.ExpenseDistribution | firefly_dashboard.py:58-69 | one slice per selected category with a withdrawal in month m, each summing those rows. Largest first |
| Breakdown.PieCoversMonth | firefly_dashboard.py:58-66 | the slices add up to the month's selected expenses, and every such category has a slice |
| Breakdown.RankByTotalTies | firefly_dashboard.py:115 | categories with equal totals are ranked in ascending name order: groupby's key order, kept by the model's stable sort |
| Breakdown.KindFor | firefly_dashboard.py:110-113 | "Income" selects Deposit, and any other value selects Withdrawal |
| Breakdown.TopCategories | firefly_dashboard.py:102-116 | at most n categories, totals non-increasing |
| Breakdown.TopCategoriesAreGroups | firefly_dashboard.py:108-115 | each listed category occurs once, has at least one qualifying row, and shows the sum of its qualifying rows. When fewer than n are listed, every qualifying category is listed |
| Breakdown.TopCategoriesAreLargest | firefly_dashboard.py:115 | a qualifying row whose category is left out has a category total no larger than any listed one |
| Breakdown.TopCategoriesPrefix | firefly_dashboard.py:115 | the top n is a prefix of the top n + 1, which is at most one longer |
| Breakdown.TopCategoriesTies | firefly_dashboard.py:115 | listed categories with equal totals are in ascending name order |
| Breakdown.OneCategoryTop | firefly_dashboard.py:108-115 | when all qualifying rows share one category and n >= 1, the result is that category with the total of all qualifying rows |
| Breakdown.JanuaryTopExpenses | firefly_dashboard.py:102-116 | two Food lunches of 100 and 50 plus a salary, top 5 expenses: exactly Food with 150 |
| Breakdown.Mean | firefly_dashboard.py:208 | the mean exists iff the count is positive, and then mean × count = sum |
| Breakdown.Summary | firefly_dashboard.py:201-216 | each line holds its category's sum, the count of its numeric amounts, and the mean of those. Lines are ordered by total descending |
| Breakdown.SummaryPartitions | firefly_dashboard.py:201-216 | one line per qualifying category and none other, and the line totals add up to the qualifying total |
| Breakdown.SummaryCountsPositive | firefly_dashboard.py:208-214 | when every amount is numeric, each line counts at least one transaction and has a mean |
| Lookup.Candidates | firefly_dashboard.py:120-122 | the masked, projected rows in table order: no more lines than rows |
| Lookup.CandidatesMembership | firefly_dashboard.py:120-122 | a line is listed iff it is the projection of a row of the month that the category argument picks |
| Lookup.Transactions | firefly_dashboard.py:119-122 | the lines are exactly (as a multiset) the projections of the rows picked by category and month, ordered latest first |
| Lookup.TransactionsMembership | firefly_dashboard.py:120-122 | a line is listed iff it projects a row of the month that the category argument picks |
| Lookup.AllListsWholeMonth | firefly_dashboard.py:227-228 | with "All", every row of the month is listed, one line per row |
| Lookup.OnlyWithinAll | firefly_dashboard.py:227-230 | one category's lines are among the month's "All" lines |
| Lookup.MonthSummary | firefly_dashboard.py:237-239 | for "All", the summed amount is the month's total and the number of transactions is the month's number of rows |
| Order.StrLtIsStrictTotalOrder | firefly_dashboard.py:66 | Python's string order, which groupby uses for category keys, is a strict total order |
| Sorting.SortBy | firefly_dashboard.py:67 | the sorted table is a permutation of its input, ordered under the comparison |
| Sorting.SortByStable | firefly_dashboard.py:115 | elements that tie under the comparison keep their input order |
| Sorting.SortedKeys | firefly_dashboard.py:43 | groupby's key list holds exactly the values present, each once, strictly ascending |

## Left out

- The Streamlit widgets, tabs, sliders and session state of `main` (lines 125-244) are not modelled, including the "select all" state. They choose the parameters; the model takes them as arguments. Three computations inside `main` are modelled:
  - the income and expense summary tables of lines 201-216 (`Breakdown.Summary` and the lemmas after it);
  - the "All"/category dispatch of lines 227-230 (`Lookup.AllListsWholeMonth`, `Lookup.OnlyWithinAll`);
  - the summary statistics of lines 237-239 (`Lookup.MonthSummary`, for "All").
- Plotly figure construction is not modelled: `px.bar`, `px.pie`, `go.Scatter`, `make_subplots` and the `add_trace` loops call into a charting library.
- CSV reading (`pd.read_csv`) and the `@st.cache_data` cache are not modelled. They are I/O and a framework cache; the loader starts from the records read.
- Inside `dateutil.parser.parse`, the formats accepted and the dropping of the time zone are not modelled. The parser is a parameter.
- Floating point is not modelled: `round(2)` at lines 208 and 214, and the `:.2f` formatting. Amounts are exact integers; means are exact reals.
- Month buckets are the pair (year, month), not the string "YYYY-MM". Their order is the string order for four-digit years.
- `Breakdown.ExpenseDistribution`, `Breakdown.Summary`: the order among equal totals is not stated. pandas' default single-column `sort_values` (lines 67, 210 and 216) is not stable, so the source promises no order there. The model's sort is stable, but the contracts claim only the order on totals.
- `Lookup.Transactions`: the order among rows with the same timestamp is not stated, for the same reason.
- `Breakdown.TopCategories`: `n` is a natural number. `nlargest` with a negative `n` is not modelled; the UI slider never supplies one.
- `Breakdown.RankByTotalTies`, `Breakdown.TopCategoriesTies`, `Breakdown.TopCategoriesPrefix`: the tie order they state is the model's stable sort. pandas' `nlargest(n, keep='first')` keeps ties in groupby's ascending name order only when n is smaller than the number of categories. For a larger n it falls back to the unstable `sort_values`, so the source promises no tie order there. Likewise the top n + 1 need not extend the top n in the source when n + 1 equals the number of categories and totals tie: then one call takes the selection path and the other the sort. For smaller n both select, and for larger n both take the same sort of the same Series.
- `Series.DailySeries`: `create_time_series` as written raises instead of returning this series when a type is missing. The rest of the model uses the zero-filled series (see Findings).
- The mean of an empty transaction list (line 238) is not modelled. `Lookup.MonthSummary` states the total and the count only.
- `firefly_dashboard copy.py` is an identical copy and is not modelled separately.
- A percentage-threshold filter for the pie, an "average per month" summary, a search term and a CSV export with its round trip do not occur in `firefly_dashboard.py`, so there is nothing to model.

## Findings

| source | as written | input that shows it | evidently intended | confidence | as-written member | corrected member |
|---|---|---|---|---|---|---|
| firefly_dashboard.py:89-90 | `unstack(fill_value=0)` creates a column only for a type present in range. `daily_summary['Deposit']` then raises KeyError when no Deposit row is in range, and `daily_summary['Withdrawal']` when no Withdrawal row is | one Withdrawal of 100 on 2024-01-05, range 2024-01-01..2024-01-31 | a series with Deposit 0, Withdrawal 100, Net -100 for that timestamp | not executed | Series.DailySeriesAsWritten, Series.ExpenseOnlyMonthRaises | Series.DailySeries, Series.SeriesAddsUpToOverview |
