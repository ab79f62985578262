// Read-only analytics over the monthly financial records: the trend of one
// column, the expense breakdown of one month, the per-year comparison and the
// ranking of expense categories. A monthly record has the columns of the
// `financial_aggregation` table, so it is modelled by Store.MonthlyAggregate.

module FinancialAnalytics {
  import opened Common
  import opened Store

  // ------------------------------------------------------------------ trends

  /** The eleven columns whose trend can be asked for, by their column names. */
  const TrendFields: seq<Field> := [
    Housing, Dining, Living, Entertainment, Transportation, Travel, Gifts,
    Transactions, SocialExpenses, Salary, Balance]

  /** The column a category name selects, if it is one of the eleven. */
  function TrendColumn(category: string): (r: Option<Field>)
    ensures r.Some? ==> r.value in TrendFields && ColumnName(r.value) == category
    ensures r.None? ==> forall k :: 0 <= k < |TrendFields| ==> ColumnName(TrendFields[k]) != category
  {
    match FirstWhere(TrendFields, f => ColumnName(f) == category)
    case None => None
    case Some(k) => Some(TrendFields[k])
  }

  /** Records ordered by their month key, as `ORDER BY month_date` compares text. */
  predicate MonthLe(a: MonthlyAggregate, b: MonthlyAggregate) {
    StringLe(a.monthDate, b.monthDate)
  }

  lemma MonthLeTotalPreorder()
    ensures TotalPreorder(MonthLe)
  {
    StringLeTotalPreorder();
    forall a: MonthlyAggregate, b: MonthlyAggregate ensures MonthLe(a, b) || MonthLe(b, a) {
      assert StringLe(a.monthDate, b.monthDate) || StringLe(b.monthDate, a.monthDate);
    }
    forall a: MonthlyAggregate, b: MonthlyAggregate, c: MonthlyAggregate | MonthLe(a, b) && MonthLe(b, c)
      ensures MonthLe(a, c)
    {
      assert StringLe(a.monthDate, c.monthDate);
    }
  }

  datatype TrendPoint = TrendPoint(date: string, value: real)

  /** get_category_trends: (month key, column value) for every record in month order,
      nothing for a name outside the eleven columns. */
  function CategoryTrends(records: seq<MonthlyAggregate>, category: string): seq<TrendPoint> {
    match TrendColumn(category)
    case None => []
    case Some(f) => Map(SortBy(records, MonthLe), (r: MonthlyAggregate) => TrendPoint(r.monthDate, Get(r.values, f)))
  }

  /** No trend exactly when the name is not one of the eleven columns or there are no records. */
  lemma TrendsEmptyIff(records: seq<MonthlyAggregate>, category: string)
    ensures CategoryTrends(records, category) == []
      <==> records == [] || forall k :: 0 <= k < |TrendFields| ==> ColumnName(TrendFields[k]) != category
  {
    match TrendColumn(category)
    case None =>
    case Some(f) =>
      var k :| 0 <= k < |TrendFields| && TrendFields[k] == f;
      assert ColumnName(TrendFields[k]) == category;
  }

  /** The trend of a known column is the records rearranged into month order, one point each. */
  lemma TrendsInMonthOrder(records: seq<MonthlyAggregate>, category: string, f: Field)
    returns (sorted: seq<MonthlyAggregate>)
    requires f in TrendFields && ColumnName(f) == category
    ensures multiset(sorted) == multiset(records) && SortedBy(sorted, MonthLe)
    ensures |CategoryTrends(records, category)| == |sorted|
    ensures forall i :: 0 <= i < |sorted| ==>
      CategoryTrends(records, category)[i] == TrendPoint(sorted[i].monthDate, Get(sorted[i].values, f))
    ensures forall i, j :: 0 <= i < j < |sorted| ==>
      StringLe(CategoryTrends(records, category)[i].date, CategoryTrends(records, category)[j].date)
  {
    ColumnNameInjective(f, TrendColumn(category).value);
    sorted := SortBy(records, MonthLe);
    MonthLeTotalPreorder();
    SortBySorted(records, MonthLe);
  }

  lemma ColumnNameInjective(f: Field, g: Field)
    requires ColumnName(f) == ColumnName(g)
    ensures f == g
  {
  }

  // ------------------------------------------------------- monthly breakdown

  /** The eight expense columns, in the order the breakdown and the ranking list them. */
  const ExpenseFields: seq<Field> := [
    Housing, Dining, Living, Entertainment, Transportation, Travel, Gifts, SocialExpenses]

  datatype Amount = Amount(name: string, amount: real)

  datatype Breakdown = Breakdown(
    monthDate: string, expenses: seq<Amount>, salary: real, transactions: real, balance: real)

  /** The magnitude of every expense column of a record, by name. */
  function ExpenseMagnitudes(v: Columns): seq<Amount> {
    Map(ExpenseFields, (f: Field) => Amount(ColumnName(f), Abs(Get(v, f))))
  }

  /** get_monthly_expenses_breakdown: the first record with that month key, its expenses as
      magnitudes and its income and balance as stored; None when no record has the key. */
  function MonthlyBreakdown(records: seq<MonthlyAggregate>, monthDate: string): Option<Breakdown> {
    match FirstWhere(records, (r: MonthlyAggregate) => r.monthDate == monthDate)
    case None => None
    case Some(k) =>
      var v := records[k].values;
      Some(Breakdown(records[k].monthDate, ExpenseMagnitudes(v), v.salary, v.transactions, v.balance))
  }

  lemma BreakdownAbsentIff(records: seq<MonthlyAggregate>, monthDate: string)
    ensures MonthlyBreakdown(records, monthDate).None?
      <==> forall i :: 0 <= i < |records| ==> records[i].monthDate != monthDate
  {
  }

  /** The breakdown describes the first record with the key: eight non-negative magnitudes in
      column order, and salary, transactions and balance unchanged. */
  lemma BreakdownOfFirstRecord(records: seq<MonthlyAggregate>, monthDate: string, k: nat)
    requires k < |records| && records[k].monthDate == monthDate
    requires forall j :: 0 <= j < k ==> records[j].monthDate != monthDate
    ensures MonthlyBreakdown(records, monthDate).Some?
    ensures var b := MonthlyBreakdown(records, monthDate).value;
      && b.monthDate == monthDate
      && |b.expenses| == |ExpenseFields|
      && (forall i :: 0 <= i < |ExpenseFields| ==>
            b.expenses[i] == Amount(ColumnName(ExpenseFields[i]), Abs(Get(records[k].values, ExpenseFields[i]))))
      && (forall i :: 0 <= i < |ExpenseFields| ==> b.expenses[i].amount >= 0.0)
      && b.salary == records[k].values.salary
      && b.transactions == records[k].values.transactions
      && b.balance == records[k].values.balance
  {
    FirstWhereAt(records, (r: MonthlyAggregate) => r.monthDate == monthDate, k);
  }

  // -------------------------------------------------------- year comparison

  /** SQL substr(month_date, 1, 4): the first four characters, or fewer. */
  function YearOf(monthDate: string): (y: string)
    ensures StartsWith(monthDate, y)
  {
    if |monthDate| <= 4 then monthDate else monthDate[..4]
  }

  /** The distinct year prefixes of the records, in order of first occurrence. */
  function DistinctYears(records: seq<MonthlyAggregate>): seq<string> {
    Dedup(Map(records, (r: MonthlyAggregate) => YearOf(r.monthDate)))
  }

  /** The distinct years are without repetition, and are exactly the years of the records. */
  lemma DistinctYearsExact(records: seq<MonthlyAggregate>)
    ensures Distinct(DistinctYears(records))
    ensures forall y :: y in DistinctYears(records) <==> exists i :: 0 <= i < |records| && YearOf(records[i].monthDate) == y
  {
    var ys := Map(records, (r: MonthlyAggregate) => YearOf(r.monthDate));
    DedupExact(ys);
    forall y ensures y in ys <==> exists i :: 0 <= i < |records| && YearOf(records[i].monthDate) == y {
      if y in ys {
        var i :| 0 <= i < |ys| && ys[i] == y;
      }
    }
  }

  /** The records of a year: month_date LIKE '<year>%'. */
  function YearRecords(records: seq<MonthlyAggregate>, year: string): seq<MonthlyAggregate> {
    Filter(records, (r: MonthlyAggregate) => StartsWith(r.monthDate, year))
  }

  function RecordExpenses(r: MonthlyAggregate): real {
    var v := r.values;
    Abs(v.housing) + Abs(v.dining) + Abs(v.living) + Abs(v.entertainment)
    + Abs(v.transportation) + Abs(v.travel) + Abs(v.gifts) + Abs(v.socialExpenses)
  }

  function RecordIncome(r: MonthlyAggregate): real {
    r.values.salary + r.values.transactions
  }

  datatype YearSummary = YearSummary(
    year: string, totalExpenses: real, totalIncome: real, netBalance: real, monthsCount: nat)

  /** The summary of one year's records. */
  function SummaryOf(records: seq<MonthlyAggregate>, year: string): YearSummary {
    Summarize(year, YearRecords(records, year))
  }

  /** The totals of the records found for a year. */
  function Summarize(year: string, yearRecords: seq<MonthlyAggregate>): YearSummary {
    var expenses := SumOf(yearRecords, RecordExpenses);
    var income := SumOf(yearRecords, RecordIncome);
    YearSummary(year, expenses, income, income - expenses, |yearRecords|)
  }

  predicate YearLe(a: YearSummary, b: YearSummary) {
    StringLe(a.year, b.year)
  }

  lemma YearLeTotalPreorder()
    ensures TotalPreorder(YearLe)
  {
    StringLeTotalPreorder();
    forall a: YearSummary, b: YearSummary ensures YearLe(a, b) || YearLe(b, a) {
      assert StringLe(a.year, b.year) || StringLe(b.year, a.year);
    }
    forall a: YearSummary, b: YearSummary, c: YearSummary | YearLe(a, b) && YearLe(b, c)
      ensures YearLe(a, c)
    {
      assert StringLe(a.year, c.year);
    }
  }

  /** get_year_comparison as a value: one summary per distinct year, sorted by year. */
  function YearComparisonSpec(records: seq<MonthlyAggregate>): seq<YearSummary> {
    SortBy(YearSummaries(records), YearLe)
  }

  /** get_year_comparison: the summaries are appended year by year, then sorted. */
  method YearComparison(records: seq<MonthlyAggregate>) returns (r: seq<YearSummary>)
    ensures r == YearComparisonSpec(records)
  {
    var years := DistinctYears(records);
    var summary := (y: string) => SummaryOf(records, y);
    var comparison: seq<YearSummary> := [];
    for i := 0 to |years|
      invariant comparison == Map(years[..i], summary)
    {
      assert years[..i + 1][..i] == years[..i];
      var yearRecords := YearRecords(records, years[i]);
      comparison := comparison + [Summarize(years[i], yearRecords)];
    }
    assert years[..|years|] == years;
    r := SortBy(comparison, YearLe);
  }

  /** Every distinct year has at least one record, so the source's emptiness test never skips one. */
  lemma YearHasRecords(records: seq<MonthlyAggregate>, y: string)
    requires y in DistinctYears(records)
    ensures SummaryOf(records, y).monthsCount >= 1
  {
    DistinctYearsExact(records);
    var i :| 0 <= i < |records| && YearOf(records[i].monthDate) == y;
    assert records[i] in YearRecords(records, y);
  }

  /** A summary totals the magnitudes of the eight expense columns and the salary and
      transactions income of the year's records; the net balance is their difference. */
  lemma SummaryTotals(records: seq<MonthlyAggregate>, y: string)
    ensures var s := SummaryOf(records, y);
      && s.year == y
      && s.totalExpenses >= 0.0
      && s.netBalance == s.totalIncome - s.totalExpenses
      && s.monthsCount == |YearRecords(records, y)|
  {
    var rs := YearRecords(records, y);
    SumOfNonNegative(rs, RecordExpenses);
    assert SummaryOf(records, y) == Summarize(y, rs);
  }

  /** The summaries of the distinct years, before sorting. */
  function YearSummaries(records: seq<MonthlyAggregate>): (u: seq<YearSummary>)
    ensures |u| == |DistinctYears(records)|
    ensures forall k :: 0 <= k < |u| ==> u[k] == SummaryOf(records, DistinctYears(records)[k])
  {
    Map(DistinctYears(records), (y: string) => SummaryOf(records, y))
  }

  /** The comparison has exactly one summary per distinct year. */
  lemma YearComparisonEntries(records: seq<MonthlyAggregate>)
    ensures var r := YearComparisonSpec(records);
      && |r| == |DistinctYears(records)|
      && (forall i :: 0 <= i < |r| ==> r[i].year in DistinctYears(records) && r[i] == SummaryOf(records, r[i].year))
      && (forall y :: y in DistinctYears(records) ==> SummaryOf(records, y) in r)
  {
    var years := DistinctYears(records);
    var unsorted := YearSummaries(records);
    var r := YearComparisonSpec(records);
    assert r == SortBy(unsorted, YearLe);
    forall i | 0 <= i < |r| ensures r[i].year in years && r[i] == SummaryOf(records, r[i].year) {
      assert r[i] in multiset(unsorted);
      var k :| 0 <= k < |unsorted| && unsorted[k] == r[i];
    }
    forall y | y in years ensures SummaryOf(records, y) in r {
      var k :| 0 <= k < |years| && years[k] == y;
      assert unsorted[k] in multiset(r);
    }
  }

  /** The years of the comparison strictly ascend. */
  lemma YearComparisonAscending(records: seq<MonthlyAggregate>)
    ensures var r := YearComparisonSpec(records);
      forall i, j :: 0 <= i < j < |r| ==> StringLe(r[i].year, r[j].year) && r[i].year != r[j].year
  {
    var years := DistinctYears(records);
    var unsorted := YearSummaries(records);
    var r := YearComparisonSpec(records);
    assert r == SortBy(unsorted, YearLe);
    DistinctYearsExact(records);
    assert Distinct(unsorted) by {
      forall i, j | 0 <= i < j < |unsorted| ensures unsorted[i] != unsorted[j] {
        assert unsorted[i].year == years[i] && unsorted[j].year == years[j];
      }
    }
    DistinctPermutation(unsorted, r);
    YearLeTotalPreorder();
    SortBySorted(unsorted, YearLe);
    YearComparisonEntries(records);
  }

  // --------------------------------------------------------- top categories

  /** The all-time magnitude of one expense column. */
  function CategoryTotal(records: seq<MonthlyAggregate>, f: Field): (r: real)
    ensures r >= 0.0
  {
    SumOfNonNegative(records, (rec: MonthlyAggregate) => Abs(Get(rec.values, f)));
    SumOf(records, (rec: MonthlyAggregate) => Abs(Get(rec.values, f)))
  }

  /** The eight totals in the dictionary's insertion order. */
  function CategoryTotals(records: seq<MonthlyAggregate>): seq<Amount> {
    Map(ExpenseFields, (f: Field) => Amount(ColumnName(f), CategoryTotal(records, f)))
  }

  /** Descending by amount; stable, so equal amounts keep their insertion order. */
  predicate AmountGe(a: Amount, b: Amount) {
    a.amount >= b.amount
  }

  lemma AmountGeTotalPreorder()
    ensures TotalPreorder(AmountGe)
  {
  }

  /** Python's s[:limit]: a negative limit counts from the end. */
  function SliceEnd(n: nat, limit: int): (k: nat)
    ensures k <= n
    ensures limit >= 0 ==> k == if limit < n then limit else n
    ensures limit < 0 ==> k == if n + limit > 0 then n + limit else 0
  {
    if limit >= 0 then (if limit < n then limit else n)
    else if n + limit > 0 then n + limit else 0
  }

  /** get_top_expense_categories: the totals sorted by amount, descending, cut at limit. */
  function TopExpenseCategories(records: seq<MonthlyAggregate>, limit: int): seq<Amount> {
    var sorted := SortBy(CategoryTotals(records), AmountGe);
    sorted[..SliceEnd(|sorted|, limit)]
  }

  /** The ranking is a non-increasing prefix of the rearranged totals: no category left out
      has a larger total than one kept, and every amount is the column's all-time magnitude. */
  lemma TopCategoriesRanked(records: seq<MonthlyAggregate>, limit: int)
    returns (sorted: seq<Amount>)
    ensures |sorted| == |ExpenseFields|
    ensures multiset(sorted) == multiset(CategoryTotals(records))
    ensures TopExpenseCategories(records, limit) == sorted[..SliceEnd(|ExpenseFields|, limit)]
    ensures forall i, j :: 0 <= i < j < |sorted| ==> sorted[i].amount >= sorted[j].amount
    ensures forall i :: 0 <= i < |sorted| ==>
      exists k :: 0 <= k < |ExpenseFields| && sorted[i] == Amount(ColumnName(ExpenseFields[k]), CategoryTotal(records, ExpenseFields[k]))
  {
    sorted := SortBy(CategoryTotals(records), AmountGe);
    AmountGeTotalPreorder();
    SortBySorted(CategoryTotals(records), AmountGe);
    forall i | 0 <= i < |sorted|
      ensures exists k :: 0 <= k < |ExpenseFields| && sorted[i] == Amount(ColumnName(ExpenseFields[k]), CategoryTotal(records, ExpenseFields[k]))
    {
      assert sorted[i] in multiset(CategoryTotals(records));
      var k :| 0 <= k < |CategoryTotals(records)| && CategoryTotals(records)[k] == sorted[i];
    }
  }

  /** The ranking has min(limit, 8) entries for a non-negative limit. */
  lemma TopCategoriesCount(records: seq<MonthlyAggregate>, limit: nat)
    ensures |TopExpenseCategories(records, limit)| == if limit < 8 then limit else 8
  {
  }
}
