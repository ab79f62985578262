// The monthly aggregation engine: folds the transactions of each month into
// signed per-category totals, a balance, an average consumption and a rolling
// three-month average, and upserts one aggregate row per month key "Y/M/1".

module Aggregation {
  import opened Common
  import opened Store

  const Income: string := "收入"
  const Expense: string := "支出"

  /** The transaction-type enumeration as (member name, stored value) pairs. */
  const TransactionTypes: seq<(string, string)> := [
    ("HOUSING", "住房"), ("DINING", "餐饮"), ("LIVING", "生活"),
    ("ENTERTAINMENT", "娱乐"), ("TRANSPORTATION", "交通"), ("TRAVEL", "旅行"),
    ("GIFTS", "礼物"), ("TRANSACTIONS", "交易"), ("SOCIAL_EXPENSES", "人情"),
    ("SALARY", "工资")]

  /** A dictionary comprehension over the members: value -> lower-cased name, later entries winning. */
  function MappingOf(types: seq<(string, string)>): map<string, string> {
    if types == [] then map[]
    else
      var last := types[|types| - 1];
      MappingOf(types[..|types| - 1])[last.1 := Lower(last.0)]
  }

  function CategoryMapping(): map<string, string> {
    MappingOf(TransactionTypes)
  }

  /** Stored category value -> column name, as the enumeration spells it. */
  const CategoryTable: map<string, string> := map[
    "住房" := "housing", "餐饮" := "dining", "生活" := "living",
    "娱乐" := "entertainment", "交通" := "transportation", "旅行" := "travel",
    "礼物" := "gifts", "交易" := "transactions", "人情" := "social_expenses",
    "工资" := "salary"]

  /** The enumeration's mapping, entry by entry. */
  lemma CategoryMappingTable()
    ensures CategoryMapping() == CategoryTable
  {
    var t := TransactionTypes;
    LowerNames();
    assert t[..0] == [] && t[..10] == t;
    MappingOfStep(t, 0); MappingOfStep(t, 1); MappingOfStep(t, 2); MappingOfStep(t, 3);
    MappingOfStep(t, 4); MappingOfStep(t, 5); MappingOfStep(t, 6); MappingOfStep(t, 7);
    MappingOfStep(t, 8); MappingOfStep(t, 9);
  }

  lemma MappingOfStep(types: seq<(string, string)>, k: nat)
    requires k < |types|
    ensures MappingOf(types[..k + 1]) == MappingOf(types[..k])[types[k].1 := Lower(types[k].0)]
  {
    assert types[..k + 1][..k] == types[..k];
  }

  lemma LowerNames()
    ensures Lower("HOUSING") == "housing" && Lower("DINING") == "dining"
    ensures Lower("LIVING") == "living" && Lower("ENTERTAINMENT") == "entertainment"
    ensures Lower("TRANSPORTATION") == "transportation" && Lower("TRAVEL") == "travel"
    ensures Lower("GIFTS") == "gifts" && Lower("TRANSACTIONS") == "transactions"
    ensures Lower("SOCIAL_EXPENSES") == "social_expenses" && Lower("SALARY") == "salary"
  {
    LowerNamesShort();
    LowerNamesLong();
  }

  lemma LowerNamesShort()
    ensures Lower("HOUSING") == "housing" && Lower("DINING") == "dining"
    ensures Lower("LIVING") == "living" && Lower("TRAVEL") == "travel"
    ensures Lower("GIFTS") == "gifts" && Lower("SALARY") == "salary"
  {
  }

  lemma LowerNamesLong()
    ensures Lower("ENTERTAINMENT") == "entertainment" && Lower("TRANSPORTATION") == "transportation"
    ensures Lower("TRANSACTIONS") == "transactions" && Lower("SOCIAL_EXPENSES") == "social_expenses"
  {
    LowerEntertainment();
    LowerTransportation();
    LowerTransactions();
    LowerSocialExpenses();
  }

  lemma LowerEntertainment()
    ensures Lower("ENTERTAINMENT") == "entertainment"
  {
  }

  lemma LowerTransportation()
    ensures Lower("TRANSPORTATION") == "transportation"
  {
  }

  lemma LowerTransactions()
    ensures Lower("TRANSACTIONS") == "transactions"
  {
  }

  lemma LowerSocialExpenses()
    ensures Lower("SOCIAL_EXPENSES") == "social_expenses"
  {
  }

  const SystemColumns: set<string> := {"id", "month_date", "created_at", "updated_at"}

  /** The numeric columns of the aggregate table: every column but the system ones. */
  function FinancialFields(): set<string> {
    set c | c in AggregationColumns && c !in SystemColumns
  }

  /** The numeric columns are exactly the names of the `Field` values. */
  lemma FinancialFieldsAreFields()
    ensures forall f :: ColumnName(f) in FinancialFields()
    ensures forall c :: c in FinancialFields() ==> exists f :: ColumnName(f) == c
  {
    forall c | c in FinancialFields() ensures exists f :: ColumnName(f) == c {
      if c == "housing" { assert ColumnName(Housing) == c; }
      else if c == "dining" { assert ColumnName(Dining) == c; }
      else if c == "living" { assert ColumnName(Living) == c; }
      else if c == "entertainment" { assert ColumnName(Entertainment) == c; }
      else if c == "transportation" { assert ColumnName(Transportation) == c; }
      else if c == "travel" { assert ColumnName(Travel) == c; }
      else if c == "gifts" { assert ColumnName(Gifts) == c; }
      else if c == "transactions" { assert ColumnName(Transactions) == c; }
      else if c == "social_expenses" { assert ColumnName(SocialExpenses) == c; }
      else if c == "salary" { assert ColumnName(Salary) == c; }
      else if c == "balance" { assert ColumnName(Balance) == c; }
      else if c == "avg_consumption" { assert ColumnName(AvgConsumption) == c; }
      else { assert c == "recent_avg_consumption"; assert ColumnName(RecentAvgConsumption) == c; }
    }
  }

  /** The static table the month fold uses. */
  function CategoryField(category: string): Option<Field> {
    if category == "住房" then Some(Housing)
    else if category == "餐饮" then Some(Dining)
    else if category == "生活" then Some(Living)
    else if category == "娱乐" then Some(Entertainment)
    else if category == "交通" then Some(Transportation)
    else if category == "旅行" then Some(Travel)
    else if category == "礼物" then Some(Gifts)
    else if category == "交易" then Some(Transactions)
    else if category == "人情" then Some(SocialExpenses)
    else if category == "工资" then Some(Salary)
    else None
  }

  /**
   * The static table is the source's two-step lookup: a category feeds a column
   * exactly when the enumeration maps it to a name that is a numeric column,
   * and then it feeds the column of that name.
   */
  lemma CategoryFieldIsMapping(category: string)
    ensures CategoryField(category).Some? <==>
      category in CategoryMapping() && CategoryMapping()[category] in FinancialFields()
    ensures CategoryField(category).Some? ==>
      ColumnName(CategoryField(category).value) == CategoryMapping()[category]
  {
    FinancialFieldsAreFields();
    CategoryMappingTable();
    match CategoryField(category)
    case Some(f) =>
      MappedCategory(category);
    case None =>
      UnmappedCategory(category);
  }

  lemma MappedCategory(category: string)
    requires CategoryField(category).Some?
    ensures category in CategoryTable
    ensures CategoryTable[category] == ColumnName(CategoryField(category).value)
  {
    var m := CategoryTable;
    if category == "住房" { assert m[category] == "housing"; }
    else if category == "餐饮" { assert m[category] == "dining"; }
    else if category == "生活" { assert m[category] == "living"; }
    else if category == "娱乐" { assert m[category] == "entertainment"; }
    else if category == "交通" { assert m[category] == "transportation"; }
    else if category == "旅行" { assert m[category] == "travel"; }
    else if category == "礼物" { assert m[category] == "gifts"; }
    else if category == "交易" { assert m[category] == "transactions"; }
    else if category == "人情" { assert m[category] == "social_expenses"; }
    else { assert m[category] == "salary"; }
  }

  lemma UnmappedCategory(category: string)
    requires CategoryField(category).None?
    ensures category !in CategoryTable
  {
  }

  // --------------------------------------------------------- one month's data

  /** The amount a transaction adds to its category column: expenses negative, incomes positive, others as stored. */
  function SignedAmount(t: Transaction): (r: real)
    ensures t.direction == Expense ==> r <= 0.0 && Abs(r) == Abs(t.amount)
    ensures t.direction == Income ==> r >= 0.0 && r == Abs(t.amount)
    ensures t.direction != Expense && t.direction != Income ==> r == t.amount
  {
    if t.direction == Expense then -Abs(t.amount)
    else if t.direction == Income then Abs(t.amount)
    else t.amount
  }

  function IncomePart(t: Transaction): real {
    if t.direction == Income then Abs(t.amount) else 0.0
  }

  function ExpensePart(t: Transaction): real {
    if t.direction == Expense then Abs(t.amount) else 0.0
  }

  function Contribution(field: Field): Transaction -> real {
    (t: Transaction) => if CategoryField(t.category) == Some(field) then SignedAmount(t) else 0.0
  }

  /** A category column's total over a month's transactions. */
  function FieldTotal(txns: seq<Transaction>, field: Field): real {
    SumOf(txns, Contribution(field))
  }

  function TotalIncome(txns: seq<Transaction>): real {
    SumOf(txns, IncomePart)
  }

  function TotalExpense(txns: seq<Transaction>): real {
    SumOf(txns, ExpensePart)
  }

  /** Columns added field by field. */
  function Add(a: Columns, b: Columns): Columns {
    Columns(
      a.housing + b.housing, a.dining + b.dining, a.living + b.living,
      a.entertainment + b.entertainment, a.transportation + b.transportation,
      a.travel + b.travel, a.gifts + b.gifts, a.transactions + b.transactions,
      a.socialExpenses + b.socialExpenses, a.salary + b.salary, a.balance + b.balance,
      a.avgConsumption + b.avgConsumption, a.recentAvgConsumption + b.recentAvgConsumption)
  }

  lemma {:induction false} GetAdd(a: Columns, b: Columns, f: Field)
    ensures Get(Add(a, b), f) == Get(a, f) + Get(b, f)
  {
    match f
    case Housing => case Dining => case Living => case Entertainment =>
    case Transportation => case Travel => case Gifts => case Transactions =>
    case SocialExpenses => case Salary => case Balance => case AvgConsumption =>
    case RecentAvgConsumption =>
  }

  /** Adding to one column is adding the columns that hold the amount there and 0 elsewhere. */
  lemma {:induction false} SetIsAdd(c: Columns, f: Field, v: real)
    ensures Set(c, f, Get(c, f) + v) == Add(c, Set(ZeroColumns, f, v))
  {
    match f
    case Housing => case Dining => case Living => case Entertainment =>
    case Transportation => case Travel => case Gifts => case Transactions =>
    case SocialExpenses => case Salary => case Balance => case AvgConsumption =>
    case RecentAvgConsumption =>
  }

  /** What one transaction adds to the month's columns. */
  function TransactionColumns(t: Transaction): Columns {
    match CategoryField(t.category)
    case Some(f) => Set(ZeroColumns, f, SignedAmount(t))
    case None => ZeroColumns
  }

  /** The month's category columns: every transaction's contribution added up. */
  function CategoryTotals(txns: seq<Transaction>): Columns {
    if txns == [] then ZeroColumns
    else Add(CategoryTotals(txns[..|txns| - 1]), TransactionColumns(txns[|txns| - 1]))
  }

  /** Each column of the totals is that column's sum over the transactions. */
  lemma {:induction false} CategoryTotalsField(txns: seq<Transaction>, f: Field)
    ensures Get(CategoryTotals(txns), f) == FieldTotal(txns, f)
  {
    if txns == [] {
      match f
      case Housing => case Dining => case Living => case Entertainment =>
      case Transportation => case Travel => case Gifts => case Transactions =>
      case SocialExpenses => case Salary => case Balance => case AvgConsumption =>
      case RecentAvgConsumption =>
    } else {
      var init, t := txns[..|txns| - 1], txns[|txns| - 1];
      CategoryTotalsField(init, f);
      GetAdd(CategoryTotals(init), TransactionColumns(t), f);
      match CategoryField(t.category)
      case Some(g) =>
        assert Get(Set(ZeroColumns, g, SignedAmount(t)), f) == Contribution(f)(t) by {
          if f != g {
            match f
            case Housing => case Dining => case Living => case Entertainment =>
            case Transportation => case Travel => case Gifts => case Transactions =>
            case SocialExpenses => case Salary => case Balance => case AvgConsumption =>
            case RecentAvgConsumption =>
          }
        }
      case None =>
        match f
        case Housing => case Dining => case Living => case Entertainment =>
        case Transportation => case Travel => case Gifts => case Transactions =>
        case SocialExpenses => case Salary => case Balance => case AvgConsumption =>
        case RecentAvgConsumption =>
    }
  }

  const ConsumptionFields: set<Field> := {Dining, Living, Entertainment, Transportation, Travel, Gifts}

  /** The month's consumption: the magnitudes of the six everyday columns. */
  function CurrentMonthConsumption(data: Columns): (r: real)
    ensures r >= 0.0
  {
    Abs(Get(data, Dining)) + Abs(Get(data, Living)) + Abs(Get(data, Entertainment))
    + Abs(Get(data, Transportation)) + Abs(Get(data, Travel)) + Abs(Get(data, Gifts))
  }

  /** Housing, social expenses, transactions, salary and the derived columns do not enter the consumption. */
  lemma ConsumptionIgnoresOtherFields(data: Columns, field: Field, v: real)
    requires field !in ConsumptionFields
    ensures CurrentMonthConsumption(Set(data, field, v)) == CurrentMonthConsumption(data)
  {
  }

  function HousingMagnitude(r: MonthlyAggregate): real {
    Abs(Get(r.values, Housing))
  }

  /** The mean housing magnitude over the visible aggregate rows, 0 when there are none. */
  function HousingAverage(visible: seq<MonthlyAggregate>): real {
    if visible == [] then 0.0 else SumOf(visible, HousingMagnitude) / (|visible| as real)
  }

  /** The housing average lies within the range of the rows' housing magnitudes. */
  lemma HousingAverageWithin(visible: seq<MonthlyAggregate>, lo: real, hi: real)
    requires visible != []
    requires forall i :: 0 <= i < |visible| ==> lo <= HousingMagnitude(visible[i]) <= hi
    ensures lo <= HousingAverage(visible) <= hi
  {
    SumOfBounds(visible, HousingMagnitude, lo, hi);
    DivisionWithin(SumOf(visible, HousingMagnitude), |visible|, lo, hi);
  }

  /** A month without housing still counts: the total stays and the count grows. */
  lemma HousingAverageCountsEmptyMonths(visible: seq<MonthlyAggregate>, empty: MonthlyAggregate)
    requires Get(empty.values, Housing) == 0.0
    ensures HousingAverage(visible + [empty]) * ((|visible| + 1) as real)
         == HousingAverage(visible) * (|visible| as real)
  {
    assert (visible + [empty])[..|visible + [empty]| - 1] == visible;
  }

  /** datetime(year, month, 1) - relativedelta(months=i), as (year, month). */
  function MonthsBefore(year: int, month: int, i: nat): (r: (int, int))
    requires 1 <= month <= 12
    ensures 1 <= r.1 <= 12
    ensures r.0 * 12 + (r.1 - 1) == year * 12 + (month - 1) - i
  {
    var index := year * 12 + (month - 1) - i;
    (index / 12, index % 12 + 1)
  }

  /** Going back across January wraps to December of the year before. */
  lemma MonthsBeforeYearWrap(year: int)
    ensures MonthsBefore(year, 1, 1) == (year - 1, 12)
    ensures MonthsBefore(year, 1, 2) == (year - 1, 11)
    ensures MonthsBefore(year, 2, 2) == (year - 1, 12)
  {
  }

  datatype YearMonth = YearMonth(year: int, month: int)

  /** The month key stored in `month_date`: unpadded year, month and day 1. */
  function MonthKey(ym: YearMonth): string {
    IntToString(ym.year) + "/" + IntToString(ym.month) + "/1"
  }

  /** Distinct months have distinct keys, so one key never stands for two months. */
  lemma MonthKeyInjective(a: YearMonth, b: YearMonth)
    requires MonthKey(a) == MonthKey(b)
    ensures a == b
  {
    MonthKeySplit(a);
    MonthKeySplit(b);
    IntToStringInjective(a.year, b.year);
    IntToStringInjective(a.month, b.month);
  }

  lemma MonthKeySplit(ym: YearMonth)
    ensures Split(MonthKey(ym), '/') == [IntToString(ym.year), IntToString(ym.month), "1"]
  {
    var y, m := IntToString(ym.year), IntToString(ym.month);
    IntToStringNoSeparator(ym.year, '/');
    IntToStringNoSeparator(ym.month, '/');
    assert MonthKey(ym) == y + ['/'] + (m + ['/'] + "1");
    SplitAfterPiece(y, '/', m + ['/'] + "1");
    SplitAfterPiece(m, '/', "1");
    SplitPiece("1", '/');
  }

  /** The first row stored under a month key. */
  function FindRecord(aggs: seq<MonthlyAggregate>, key: string): (r: Option<nat>)
    ensures r.Some? ==> r.value < |aggs| && aggs[r.value].monthDate == key
    ensures r.Some? ==> forall j :: 0 <= j < r.value ==> aggs[j].monthDate != key
    ensures r.None? ==> forall j :: 0 <= j < |aggs| ==> aggs[j].monthDate != key
  {
    if aggs == [] then None
    else if aggs[0].monthDate == key then Some(0)
    else match FindRecord(aggs[1..], key)
      case None => None
      case Some(i) => Some(i + 1)
  }

  /** The stored average consumption of an earlier month, when a row for it is visible. */
  function PriorAvg(visible: seq<MonthlyAggregate>, ym: (int, int)): (r: Option<real>)
    ensures r.Some? ==> exists i :: 0 <= i < |visible| && r.value == Get(visible[i].values, AvgConsumption)
  {
    match FindRecord(visible, MonthKey(YearMonth(ym.0, ym.1)))
    case Some(i) => Some(Get(visible[i].values, AvgConsumption))
    case None => None
  }

  function OptionalValues(o: Option<real>): seq<real> {
    if o.Some? then [o.value] else []
  }

  /** The values the rolling average is taken over: the current month, then n-1 and n-2 where stored. */
  function RecentValues(visible: seq<MonthlyAggregate>, year: int, month: int, current: real): (vs: seq<real>)
    requires 1 <= month <= 12
    ensures 1 <= |vs| <= 3 && vs[0] == current
  {
    [current] + OptionalValues(PriorAvg(visible, MonthsBefore(year, month, 1)))
    + OptionalValues(PriorAvg(visible, MonthsBefore(year, month, 2)))
  }

  function Id(x: real): real {
    x
  }

  /** sum(vs) / len(vs) for the one to three values of the rolling average. */
  function Mean(vs: seq<real>): real
    requires 1 <= |vs| <= 3
  {
    if |vs| == 1 then SumOf(vs, Id) else if |vs| == 2 then SumOf(vs, Id) / 2.0 else SumOf(vs, Id) / 3.0
  }

  /**
   * The rolling three-month average consumption. An invalid date for the
   * current or an earlier month raises, and the current value is returned.
   */
  function RecentAverage(visible: seq<MonthlyAggregate>, year: int, month: int, current: real): real {
    if !(1 <= year <= 9999 && 1 <= month <= 12) then current
    else if MonthsBefore(year, month, 2).0 < 1 then current
    else Mean(RecentValues(visible, year, month, current))
  }

  /** Without any stored history the rolling average is the current month's value. */
  lemma RecentAvgWithoutHistory(year: int, month: int, current: real)
    ensures RecentAverage([], year, month, current) == current
  {
    if 1 <= year <= 9999 && 1 <= month <= 12 && MonthsBefore(year, month, 2).0 >= 1 {
      var vs := RecentValues([], year, month, current);
      assert vs == [current];
      assert vs[..0] == [];
      assert SumOf(vs, Id) == current;
    }
  }

  lemma MeanWithin(vs: seq<real>, lo: real, hi: real)
    requires 1 <= |vs| <= 3
    requires forall i :: 0 <= i < |vs| ==> lo <= vs[i] <= hi
    ensures lo <= Mean(vs) <= hi
  {
    assert forall i :: 0 <= i < |vs| ==> lo <= Id(vs[i]) <= hi;
    SumOfBounds(vs, Id, lo, hi);
    if |vs| == 1 {
      assert (|vs| as real) * lo == lo && (|vs| as real) * hi == hi;
    } else if |vs| == 2 {
      assert (|vs| as real) * lo == 2.0 * lo && (|vs| as real) * hi == 2.0 * hi;
    } else {
      assert (|vs| as real) * lo == 3.0 * lo && (|vs| as real) * hi == 3.0 * hi;
    }
  }

  lemma PriorAvgWithin(visible: seq<MonthlyAggregate>, ym: (int, int), lo: real, hi: real)
    requires forall i :: 0 <= i < |visible| ==> lo <= Get(visible[i].values, AvgConsumption) <= hi
    ensures PriorAvg(visible, ym).Some? ==> lo <= PriorAvg(visible, ym).value <= hi
  {
  }

  /** The rolling average lies within the range of the values it averages. */
  lemma RecentAvgWithin(visible: seq<MonthlyAggregate>, year: int, month: int, current: real, lo: real, hi: real)
    requires lo <= current <= hi
    requires forall i :: 0 <= i < |visible| ==> lo <= Get(visible[i].values, AvgConsumption) <= hi
    ensures lo <= RecentAverage(visible, year, month, current) <= hi
  {
    if 1 <= year <= 9999 && 1 <= month <= 12 && MonthsBefore(year, month, 2).0 >= 1 {
      var p1, p2 := MonthsBefore(year, month, 1), MonthsBefore(year, month, 2);
      PriorAvgWithin(visible, p1, lo, hi);
      PriorAvgWithin(visible, p2, lo, hi);
      var vs := [current] + OptionalValues(PriorAvg(visible, p1)) + OptionalValues(PriorAvg(visible, p2));
      assert vs == RecentValues(visible, year, month, current);
      MeanWithin(vs, lo, hi);
    }
  }

  /** The category columns of one month, with the balance: income minus expense. */
  function MonthTotals(txns: seq<Transaction>): Columns {
    CategoryTotals(txns).(balance := TotalIncome(txns) - TotalExpense(txns))
  }

  /** The average consumption: the month's consumption plus the housing average. */
  function AverageConsumption(data: Columns, visible: seq<MonthlyAggregate>): real {
    CurrentMonthConsumption(data) + HousingAverage(visible)
  }

  /** The totals with the two derived columns filled in, the second from the first. */
  function WithAverages(totals: Columns, visible: seq<MonthlyAggregate>, year: int, month: int): Columns {
    var avg := AverageConsumption(totals, visible);
    totals.(avgConsumption := avg, recentAvgConsumption := RecentAverage(visible, year, month, avg))
  }

  /** All columns of one month, as the source computes them in a single pass. */
  function MonthData(txns: seq<Transaction>, visible: seq<MonthlyAggregate>, year: int, month: int): Columns {
    WithAverages(MonthTotals(txns), visible, year, month)
  }

  /** A month's balance is income minus expense. */
  lemma MonthDataBalance(txns: seq<Transaction>, visible: seq<MonthlyAggregate>, year: int, month: int)
    ensures MonthData(txns, visible, year, month).balance == TotalIncome(txns) - TotalExpense(txns)
  {
    assert MonthData(txns, visible, year, month) == WithAverages(MonthTotals(txns), visible, year, month);
  }

  /** Every category column of a month is that category's signed total. */
  lemma MonthDataField(txns: seq<Transaction>, visible: seq<MonthlyAggregate>, year: int, month: int, f: Field)
    requires f != Balance && f != AvgConsumption && f != RecentAvgConsumption
    ensures Get(MonthData(txns, visible, year, month), f) == FieldTotal(txns, f)
  {
    var totals := MonthTotals(txns);
    var data := MonthData(txns, visible, year, month);
    assert data == WithAverages(totals, visible, year, month);
    CategoryTotalsField(txns, f);
    assert Get(data, f) == Get(totals, f) == Get(CategoryTotals(txns), f);
  }

  /** A month's derived columns: consumption plus the housing average, and its rolling average. */
  lemma MonthDataAverages(txns: seq<Transaction>, visible: seq<MonthlyAggregate>, year: int, month: int)
    ensures MonthData(txns, visible, year, month).avgConsumption
         == CurrentMonthConsumption(CategoryTotals(txns)) + HousingAverage(visible)
    ensures MonthData(txns, visible, year, month).recentAvgConsumption
         == RecentAverage(visible, year, month, MonthData(txns, visible, year, month).avgConsumption)
  {
    var totals := MonthTotals(txns);
    assert CurrentMonthConsumption(totals) == CurrentMonthConsumption(CategoryTotals(txns));
    assert MonthData(txns, visible, year, month) == WithAverages(totals, visible, year, month);
  }

  /** A column that no transaction feeds stays 0. */
  lemma {:induction false} FieldTotalUnfed(txns: seq<Transaction>, field: Field)
    requires forall i :: 0 <= i < |txns| ==> CategoryField(txns[i].category) != Some(field)
    ensures FieldTotal(txns, field) == 0.0
  {
    if txns != [] {
      FieldTotalUnfed(txns[..|txns| - 1], field);
    }
  }

  /** A column fed only by expenses is never positive; one fed only by incomes is never negative. */
  lemma {:induction false} FieldTotalSign(txns: seq<Transaction>, field: Field)
    ensures (forall i :: 0 <= i < |txns| && CategoryField(txns[i].category) == Some(field) ==> txns[i].direction == Expense)
      ==> FieldTotal(txns, field) <= 0.0
    ensures (forall i :: 0 <= i < |txns| && CategoryField(txns[i].category) == Some(field) ==> txns[i].direction == Income)
      ==> FieldTotal(txns, field) >= 0.0
  {
    if txns != [] {
      FieldTotalSign(txns[..|txns| - 1], field);
    }
  }

  /** The totals do not depend on the order in which the month's rows arrive. */
  lemma MonthDataOrderIndependent(a: seq<Transaction>, b: seq<Transaction>, visible: seq<MonthlyAggregate>, year: int, month: int)
    requires multiset(a) == multiset(b)
    ensures MonthData(a, visible, year, month) == MonthData(b, visible, year, month)
  {
    forall f ensures Get(CategoryTotals(a), f) == Get(CategoryTotals(b), f) {
      SumOfPermutation(a, b, Contribution(f));
      CategoryTotalsField(a, f);
      CategoryTotalsField(b, f);
    }
    ColumnsExtensional(CategoryTotals(a), CategoryTotals(b));
    SumOfPermutation(a, b, IncomePart);
    SumOfPermutation(a, b, ExpensePart);
  }

  /** Adding nothing leaves the columns as they are. */
  lemma AddZero(c: Columns)
    ensures Add(c, ZeroColumns) == c
  {
  }

  /** `aggregated_data[field] += amount` for the category's column, if it has one. */
  function AddTo(data: Columns, category: string, amount: real): Columns {
    match CategoryField(category)
    case Some(f) => Set(data, f, Get(data, f) + amount)
    case None => data
  }

  lemma AddToIsAdd(data: Columns, t: Transaction, amount: real)
    requires amount == SignedAmount(t)
    ensures AddTo(data, t.category, amount) == Add(data, TransactionColumns(t))
  {
    match CategoryField(t.category)
    case Some(f) => SetIsAdd(data, f, amount);
    case None => AddZero(data);
  }

  /** The three accumulators of the month fold: the columns, total income and total expense. */
  datatype FoldState = FoldState(data: Columns, income: real, expense: real)

  /** One turn of the fold loop. */
  function FoldTransaction(s: FoldState, t: Transaction): FoldState {
    FoldState(AddTo(s.data, t.category, SignedAmount(t)), s.income + IncomePart(t), s.expense + ExpensePart(t))
  }

  /** The accumulators after the loop has visited the given transactions in order. */
  function Fold(txns: seq<Transaction>): FoldState {
    if txns == [] then FoldState(ZeroColumns, 0.0, 0.0)
    else FoldTransaction(Fold(txns[..|txns| - 1]), txns[|txns| - 1])
  }

  lemma FoldPrefix(txns: seq<Transaction>, i: nat)
    requires i < |txns|
    ensures Fold(txns[..i + 1]) == FoldTransaction(Fold(txns[..i]), txns[i])
  {
    assert txns[..i + 1][..i] == txns[..i];
  }

  /** The loop computes the per-column sums and the income and expense sums. */
  lemma FoldIsTotals(txns: seq<Transaction>)
    ensures Fold(txns) == FoldState(CategoryTotals(txns), TotalIncome(txns), TotalExpense(txns))
  {
    FoldData(txns);
    FoldIncome(txns);
    FoldExpense(txns);
  }

  lemma {:induction false} FoldData(txns: seq<Transaction>)
    ensures Fold(txns).data == CategoryTotals(txns)
  {
    if txns != [] {
      var init, t := txns[..|txns| - 1], txns[|txns| - 1];
      FoldData(init);
      AddToIsAdd(CategoryTotals(init), t, SignedAmount(t));
    }
  }

  lemma {:induction false} FoldIncome(txns: seq<Transaction>)
    ensures Fold(txns).income == TotalIncome(txns)
  {
    if txns != [] {
      FoldIncome(txns[..|txns| - 1]);
    }
  }

  lemma {:induction false} FoldExpense(txns: seq<Transaction>)
    ensures Fold(txns).expense == TotalExpense(txns)
  {
    if txns != [] {
      FoldExpense(txns[..|txns| - 1]);
    }
  }

  /** Folds one month's transactions in the source's single pass. */
  method CalculateMonthAggregation(txns: seq<Transaction>, visible: seq<MonthlyAggregate>, year: int, month: int)
    returns (data: Columns)
    ensures data == MonthData(txns, visible, year, month)
  {
    data := ZeroColumns;
    var totalIncome, totalExpense := 0.0, 0.0;
    for i := 0 to |txns|
      invariant FoldState(data, totalIncome, totalExpense) == Fold(txns[..i])
    {
      var t := txns[i];
      FoldPrefix(txns, i);
      var amount := t.amount;
      if t.direction == Expense {
        amount := -Abs(t.amount);
        totalExpense := totalExpense + Abs(amount);
      } else if t.direction == Income {
        amount := Abs(t.amount);
        totalIncome := totalIncome + amount;
      }
      data := AddTo(data, t.category, amount);
    }
    assert txns[..|txns|] == txns;
    FoldIsTotals(txns);
    data := data.(balance := totalIncome - totalExpense);
    data := WithAverages(data, visible, year, month);
  }

  // ------------------------------------------------------------- the month loop

  /** `if year:` / `if month:` — absent or 0 means no restriction. */
  predicate InScope(t: Transaction, year: Option<int>, month: Option<int>) {
    (year.None? || year.value == 0 || t.time.year == year.value)
    && (month.None? || month.value == 0 || t.time.month == month.value)
  }

  function MonthOf(t: Transaction): YearMonth {
    YearMonth(t.time.year, t.time.month)
  }

  /** The distinct months of the in-scope transactions, in order of first appearance. */
  function ScopedMonths(txns: seq<Transaction>, year: Option<int>, month: Option<int>): seq<YearMonth> {
    if txns == [] then []
    else
      var prev := ScopedMonths(txns[..|txns| - 1], year, month);
      var t := txns[|txns| - 1];
      if InScope(t, year, month) && MonthOf(t) !in prev then prev + [MonthOf(t)] else prev
  }

  /** Each in-scope month is listed exactly once. */
  lemma {:induction false} ScopedMonthsDistinct(txns: seq<Transaction>, year: Option<int>, month: Option<int>)
    ensures Distinct(ScopedMonths(txns, year, month))
  {
    if txns != [] {
      var init := txns[..|txns| - 1];
      var prev := ScopedMonths(init, year, month);
      ScopedMonthsDistinct(init, year, month);
      var r := ScopedMonths(txns, year, month);
      var m := MonthOf(txns[|txns| - 1]);
      if r != prev {
        assert r == prev + [m] && m !in prev;
        forall i, j | 0 <= i < j < |r| ensures r[i] != r[j] {
          assert r[i] == prev[i] && prev[i] in prev;
          if j < |prev| {
            assert r[j] == prev[j];
          }
        }
      }
    }
  }

  /** Every in-scope transaction's month is listed. */
  lemma {:induction false} ScopedMonthsCover(txns: seq<Transaction>, year: Option<int>, month: Option<int>)
    ensures var r := ScopedMonths(txns, year, month);
      forall i :: 0 <= i < |txns| && InScope(txns[i], year, month) ==> MonthOf(txns[i]) in r
  {
    if txns != [] {
      var init := txns[..|txns| - 1];
      ScopedMonthsCover(init, year, month);
      var r := ScopedMonths(txns, year, month);
      forall i | 0 <= i < |txns| && InScope(txns[i], year, month) ensures MonthOf(txns[i]) in r {
        if i < |init| {
          assert txns[i] == init[i];
        }
      }
    }
  }

  /** Some in-scope transaction falls in month m. */
  predicate Sourced(txns: seq<Transaction>, year: Option<int>, month: Option<int>, m: YearMonth) {
    exists i :: 0 <= i < |txns| && InScope(txns[i], year, month) && MonthOf(txns[i]) == m
  }

  /** Only months of in-scope transactions are listed. */
  lemma {:induction false} ScopedMonthsSources(txns: seq<Transaction>, year: Option<int>, month: Option<int>)
    ensures forall k :: 0 <= k < |ScopedMonths(txns, year, month)| ==>
      Sourced(txns, year, month, ScopedMonths(txns, year, month)[k])
  {
    if txns != [] {
      var init := txns[..|txns| - 1];
      ScopedMonthsSources(init, year, month);
      var prev := ScopedMonths(init, year, month);
      var r := ScopedMonths(txns, year, month);
      forall k | 0 <= k < |r| ensures Sourced(txns, year, month, r[k]) {
        if k < |prev| {
          assert r[k] == prev[k];
          assert Sourced(init, year, month, prev[k]);
          var i :| 0 <= i < |init| && InScope(init[i], year, month) && MonthOf(init[i]) == prev[k];
          assert txns[i] == init[i];
        } else {
          assert MonthOf(txns[|txns| - 1]) == r[k];
        }
      }
    }
  }

  function InMonth(ym: YearMonth): Transaction -> bool {
    (t: Transaction) => t.time.year == ym.year && t.time.month == ym.month
  }

  function MonthTransactions(txns: seq<Transaction>, ym: YearMonth): seq<Transaction> {
    Filter(txns, InMonth(ym))
  }

  function CreateRecord(key: string, data: Columns): MonthlyAggregate {
    MonthlyAggregate(key, data)
  }

  /** Overwrites every numeric column of a record and keeps its key. */
  function UpdateRecord(rec: MonthlyAggregate, data: Columns): (r: MonthlyAggregate)
    ensures r.monthDate == rec.monthDate && r.values == data
  {
    rec.(values := data)
  }

  /** Update the row stored under the key, or append a new one. */
  function Upsert(aggs: seq<MonthlyAggregate>, key: string, data: Columns): seq<MonthlyAggregate> {
    match FindRecord(aggs, key)
    case Some(i) => aggs[i := UpdateRecord(aggs[i], data)]
    case None => aggs + [CreateRecord(key, data)]
  }

  /** Each month's data, computed from that month's transactions. */
  function MonthRecordData(txns: seq<Transaction>, visible: seq<MonthlyAggregate>): YearMonth -> Columns {
    (ym: YearMonth) => MonthData(MonthTransactions(txns, ym), visible, ym.year, ym.month)
  }

  /** The aggregate table after upserting the given months in order, each with its data. */
  function Rebuilt(aggs: seq<MonthlyAggregate>, months: seq<YearMonth>,
                   dataOf: YearMonth -> Columns): seq<MonthlyAggregate>
    decreases |months|
  {
    if months == [] then aggs
    else
      var last := months[|months| - 1];
      Upsert(Rebuilt(aggs, months[..|months| - 1], dataOf), MonthKey(last), dataOf(last))
  }

  /** How many of the months find no row under their key at their turn, and so create one. */
  function CreatedCount(aggs: seq<MonthlyAggregate>, months: seq<YearMonth>,
                        dataOf: YearMonth -> Columns): nat
    decreases |months|
  {
    if months == [] then 0
    else
      var init := months[..|months| - 1];
      CreatedCount(aggs, init, dataOf)
      + (if FindRecord(Rebuilt(aggs, init, dataOf), MonthKey(months[|months| - 1])).None? then 1 else 0)
  }

  /** One more month: one more upsert, and one more creation when its key is missing. */
  lemma RebuiltStep(aggs: seq<MonthlyAggregate>, months: seq<YearMonth>, dataOf: YearMonth -> Columns, i: nat)
    requires i < |months|
    ensures Rebuilt(aggs, months[..i + 1], dataOf)
         == Upsert(Rebuilt(aggs, months[..i], dataOf), MonthKey(months[i]), dataOf(months[i]))
    ensures CreatedCount(aggs, months[..i + 1], dataOf) == CreatedCount(aggs, months[..i], dataOf)
         + (if FindRecord(Rebuilt(aggs, months[..i], dataOf), MonthKey(months[i])).None? then 1 else 0)
  {
    assert months[..i + 1][..i] == months[..i];
  }

  predicate UniqueKeys(aggs: seq<MonthlyAggregate>) {
    forall i, j :: 0 <= i < j < |aggs| ==> aggs[i].monthDate != aggs[j].monthDate
  }

  predicate KeyOfSome(key: string, months: seq<YearMonth>) {
    exists k :: 0 <= k < |months| && MonthKey(months[k]) == key
  }

  lemma KeyOfSomePrefix(key: string, months: seq<YearMonth>)
    requires months != []
    ensures KeyOfSome(key, months[..|months| - 1]) ==> KeyOfSome(key, months)
  {
    if KeyOfSome(key, months[..|months| - 1]) {
      var k :| 0 <= k < |months| - 1 && MonthKey(months[..|months| - 1][k]) == key;
      assert months[k] == months[..|months| - 1][k];
    }
  }

  /** An upsert keeps every existing row's key, and every row under another key, and appends at most one row. */
  lemma UpsertKeepsOthers(aggs: seq<MonthlyAggregate>, key: string, data: Columns)
    ensures |Upsert(aggs, key, data)| == |aggs| + (if FindRecord(aggs, key).None? then 1 else 0)
    ensures forall i :: 0 <= i < |aggs| ==> Upsert(aggs, key, data)[i].monthDate == aggs[i].monthDate
    ensures forall i :: 0 <= i < |aggs| && aggs[i].monthDate != key ==> Upsert(aggs, key, data)[i] == aggs[i]
  {
  }

  /** After an upsert, row j holds the key with the new data. */
  lemma UpsertHolds(aggs: seq<MonthlyAggregate>, key: string, data: Columns) returns (j: nat)
    ensures j < |Upsert(aggs, key, data)|
    ensures Upsert(aggs, key, data)[j] == MonthlyAggregate(key, data)
  {
    match FindRecord(aggs, key)
    case Some(i) => j := i;
    case None => j := |aggs|;
  }

  /** Rows whose key is not one of the months keep their place and content; only new rows are appended. */
  lemma {:induction false} RebuiltKeepsOtherRows(aggs: seq<MonthlyAggregate>, months: seq<YearMonth>,
                                                 dataOf: YearMonth -> Columns)
    ensures |Rebuilt(aggs, months, dataOf)| == |aggs| + CreatedCount(aggs, months, dataOf)
    ensures forall i :: 0 <= i < |aggs| ==> Rebuilt(aggs, months, dataOf)[i].monthDate == aggs[i].monthDate
    ensures forall i :: 0 <= i < |aggs| && !KeyOfSome(aggs[i].monthDate, months) ==>
      Rebuilt(aggs, months, dataOf)[i] == aggs[i]
    decreases |months|
  {
    if months != [] {
      var init := months[..|months| - 1];
      var last := months[|months| - 1];
      var before := Rebuilt(aggs, init, dataOf);
      RebuiltKeepsOtherRows(aggs, init, dataOf);
      UpsertKeepsOthers(before, MonthKey(last), dataOf(last));
      assert CreatedCount(aggs, months, dataOf) == CreatedCount(aggs, init, dataOf)
        + (if FindRecord(before, MonthKey(last)).None? then 1 else 0);
      forall i | 0 <= i < |aggs| && !KeyOfSome(aggs[i].monthDate, months)
        ensures !KeyOfSome(aggs[i].monthDate, init) && aggs[i].monthDate != MonthKey(last)
      {
        KeyOfSomePrefix(aggs[i].monthDate, months);
      }
    }
  }

  /** Upserting keeps unique keys unique. */
  lemma {:induction false} RebuiltUniqueKeys(aggs: seq<MonthlyAggregate>, months: seq<YearMonth>,
                                             dataOf: YearMonth -> Columns)
    requires UniqueKeys(aggs)
    ensures UniqueKeys(Rebuilt(aggs, months, dataOf))
    decreases |months|
  {
    if months != [] {
      RebuiltUniqueKeys(aggs, months[..|months| - 1], dataOf);
    }
  }

  /** After the run, every month of the run has a row under its key holding that month's data. */
  lemma {:induction false} RebuiltHoldsMonth(aggs: seq<MonthlyAggregate>, months: seq<YearMonth>,
                                             dataOf: YearMonth -> Columns, k: nat)
    returns (j: nat)
    requires forall a, b :: 0 <= a < b < |months| ==> months[a] != months[b]
    requires k < |months|
    ensures j < |Rebuilt(aggs, months, dataOf)|
    ensures Rebuilt(aggs, months, dataOf)[j].monthDate == MonthKey(months[k])
    ensures Rebuilt(aggs, months, dataOf)[j].values == dataOf(months[k])
    decreases |months|
  {
    var init := months[..|months| - 1];
    var last := months[|months| - 1];
    var before := Rebuilt(aggs, init, dataOf);
    assert Rebuilt(aggs, months, dataOf) == Upsert(before, MonthKey(last), dataOf(last));
    if k == |months| - 1 {
      j := UpsertHolds(before, MonthKey(last), dataOf(last));
    } else {
      j := RebuiltHoldsMonth(aggs, init, dataOf, k);
      assert init[k] == months[k];
      if MonthKey(months[k]) == MonthKey(last) {
        MonthKeyInjective(months[k], last);
      }
      UpsertKeepsOthers(before, MonthKey(last), dataOf(last));
    }
  }

  datatype AggregationResult = AggregationResult(success: bool, message: string,
                                                 processed: nat, created: nat, updated: nat)

  /**
   * One upsert per distinct month in scope, then a commit. `visible` is the
   * committed aggregate table the derived columns read; `failure` is the text
   * of an exception raised by the store, which rolls the run back.
   */
  method AggregateMonthlyData(db: Database, year: Option<int>, month: Option<int>,
                              visible: seq<MonthlyAggregate>, failure: Option<string>)
    returns (r: AggregationResult)
    modifies db
    ensures db.transactions == old(db.transactions)
    ensures failure.Some? ==>
      r == AggregationResult(false, "聚合失败: " + failure.value, 0, 0, 0)
      && db.aggregates == old(db.aggregates)
    ensures failure.None? ==>
      var months := ScopedMonths(old(db.transactions), year, month);
      && r.success && r.message == "月度数据聚合完成"
      && r.processed == |months| && r.processed == r.created + r.updated
      && r.created == CreatedCount(old(db.aggregates), months, MonthRecordData(old(db.transactions), visible))
      && db.aggregates == Rebuilt(old(db.aggregates), months, MonthRecordData(old(db.transactions), visible))
  {
    var txns := db.transactions;
    var start := db.aggregates;
    var months := ScopedMonths(txns, year, month);
    var processed, created, updated := 0, 0, 0;
    for i := 0 to |months|
      invariant db.transactions == txns
      invariant db.aggregates == Rebuilt(start, months[..i], MonthRecordData(txns, visible))
      invariant processed == i && created + updated == i
      invariant created == CreatedCount(start, months[..i], MonthRecordData(txns, visible))
    {
      var ym := months[i];
      RebuiltStep(start, months, MonthRecordData(txns, visible), i);
      var data := CalculateMonthAggregation(MonthTransactions(txns, ym), visible, ym.year, ym.month);
      assert data == MonthRecordData(txns, visible)(ym);
      var key := MonthKey(ym);
      var existing := FindRecord(db.aggregates, key);
      if existing.Some? {
        db.aggregates := db.aggregates[existing.value := UpdateRecord(db.aggregates[existing.value], data)];
        updated := updated + 1;
      } else {
        db.aggregates := db.aggregates + [CreateRecord(key, data)];
        created := created + 1;
      }
      processed := processed + 1;
    }
    assert months[..|months|] == months;
    if failure.Some? {
      db.aggregates := start;
      return AggregationResult(false, "聚合失败: " + failure.value, 0, 0, 0);
    }
    r := AggregationResult(true, "月度数据聚合完成", processed, created, updated);
  }
}
