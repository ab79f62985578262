// The persisted tables of the backend: transaction details and monthly
// financial aggregates, held by one database object whose two tables the
// importer and the aggregation engine rewrite in place.

module Store {
  import opened Common

  /** A timestamp as stored in the `transaction_time` column. */
  datatype DateTime = DateTime(year: int, month: int, day: int, hour: int, minute: int, second: int)

  function DateTimeKey(t: DateTime): (k: seq<int>)
    ensures |k| == 6 && k[0] == t.year && k[1] == t.month
  {
    [t.year, t.month, t.day, t.hour, t.minute, t.second]
  }

  /** Chronological order: field by field from the year down to the second. */
  predicate DateTimeLe(a: DateTime, b: DateTime) {
    LexLe(DateTimeKey(a), DateTimeKey(b))
  }

  lemma DateTimeLeTotalPreorder()
    ensures TotalPreorder(DateTimeLe)
  {
    forall a, b ensures DateTimeLe(a, b) || DateTimeLe(b, a) {
      LexLeTotal(DateTimeKey(a), DateTimeKey(b));
    }
    forall a, b, c | DateTimeLe(a, b) && DateTimeLe(b, c) ensures DateTimeLe(a, c) {
      LexLeTransitive(DateTimeKey(a), DateTimeKey(b), DateTimeKey(c));
    }
  }

  /** strftime("%Y-%m-%d %H:%M:%S"): every field below the year zero-padded to two digits. */
  function DateTimeString(t: DateTime): string {
    IntToString(t.year) + "-" + PadStart2(IntToString(t.month)) + "-" + PadStart2(IntToString(t.day))
    + " " + PadStart2(IntToString(t.hour)) + ":" + PadStart2(IntToString(t.minute))
    + ":" + PadStart2(IntToString(t.second))
  }

  /** One row of `transaction_details`; the four optional text columns are NULL-able. */
  datatype Transaction = Transaction(
    time: DateTime,
    category: string,
    amount: real,
    direction: string,
    paymentMethod: Option<string>,
    counterparty: Option<string>,
    itemName: Option<string>,
    remarks: Option<string>)

  /** The columns of the `financial_aggregation` table, in declaration order. */
  const AggregationColumns: seq<string> := [
    "id", "month_date", "housing", "dining", "living", "entertainment",
    "transportation", "travel", "gifts", "transactions", "social_expenses",
    "salary", "balance", "avg_consumption", "recent_avg_consumption",
    "created_at", "updated_at"]

  /** The numeric columns of `financial_aggregation`. */
  datatype Field =
    | Housing | Dining | Living | Entertainment | Transportation | Travel | Gifts
    | Transactions | SocialExpenses | Salary | Balance | AvgConsumption | RecentAvgConsumption

  function ColumnName(f: Field): string {
    match f
    case Housing => "housing"
    case Dining => "dining"
    case Living => "living"
    case Entertainment => "entertainment"
    case Transportation => "transportation"
    case Travel => "travel"
    case Gifts => "gifts"
    case Transactions => "transactions"
    case SocialExpenses => "social_expenses"
    case Salary => "salary"
    case Balance => "balance"
    case AvgConsumption => "avg_consumption"
    case RecentAvgConsumption => "recent_avg_consumption"
  }

  const AllFields: seq<Field> := [
    Housing, Dining, Living, Entertainment, Transportation, Travel, Gifts,
    Transactions, SocialExpenses, Salary, Balance, AvgConsumption, RecentAvgConsumption]

  lemma AllFieldsListed(f: Field)
    ensures f in AllFields
  {
  }

  /** The numeric columns of one `financial_aggregation` row. */
  datatype Columns = Columns(
    housing: real, dining: real, living: real, entertainment: real,
    transportation: real, travel: real, gifts: real, transactions: real,
    socialExpenses: real, salary: real, balance: real,
    avgConsumption: real, recentAvgConsumption: real)

  /** Every column at its default, 0.0. */
  const ZeroColumns: Columns := Columns(0.0, 0.0, 0.0, 0.0, 0.0, 0.0, 0.0, 0.0, 0.0, 0.0, 0.0, 0.0, 0.0)

  /** The value of a column (`getattr(record, name)`). */
  function Get(c: Columns, f: Field): real {
    match f
    case Housing => c.housing
    case Dining => c.dining
    case Living => c.living
    case Entertainment => c.entertainment
    case Transportation => c.transportation
    case Travel => c.travel
    case Gifts => c.gifts
    case Transactions => c.transactions
    case SocialExpenses => c.socialExpenses
    case Salary => c.salary
    case Balance => c.balance
    case AvgConsumption => c.avgConsumption
    case RecentAvgConsumption => c.recentAvgConsumption
  }

  /** Writes one column (`setattr(record, name, v)`). */
  function Set(c: Columns, f: Field, v: real): (r: Columns)
    ensures Get(r, f) == v
    ensures forall g :: g != f ==> Get(r, g) == Get(c, g)
  {
    match f
    case Housing => c.(housing := v)
    case Dining => c.(dining := v)
    case Living => c.(living := v)
    case Entertainment => c.(entertainment := v)
    case Transportation => c.(transportation := v)
    case Travel => c.(travel := v)
    case Gifts => c.(gifts := v)
    case Transactions => c.(transactions := v)
    case SocialExpenses => c.(socialExpenses := v)
    case Salary => c.(salary := v)
    case Balance => c.(balance := v)
    case AvgConsumption => c.(avgConsumption := v)
    case RecentAvgConsumption => c.(recentAvgConsumption := v)
  }

  /** Two column sets are equal when every column is. */
  lemma ColumnsExtensional(a: Columns, b: Columns)
    requires forall f :: Get(a, f) == Get(b, f)
    ensures a == b
  {
    assert Get(a, Housing) == Get(b, Housing) && Get(a, Dining) == Get(b, Dining);
    assert Get(a, Living) == Get(b, Living) && Get(a, Entertainment) == Get(b, Entertainment);
    assert Get(a, Transportation) == Get(b, Transportation) && Get(a, Travel) == Get(b, Travel);
    assert Get(a, Gifts) == Get(b, Gifts) && Get(a, Transactions) == Get(b, Transactions);
    assert Get(a, SocialExpenses) == Get(b, SocialExpenses) && Get(a, Salary) == Get(b, Salary);
    assert Get(a, Balance) == Get(b, Balance) && Get(a, AvgConsumption) == Get(b, AvgConsumption);
    assert Get(a, RecentAvgConsumption) == Get(b, RecentAvgConsumption);
  }

  /** One row of `financial_aggregation`: its month key ("2022/8/1") and its numeric columns. */
  datatype MonthlyAggregate = MonthlyAggregate(monthDate: string, values: Columns)

  /** The two tables of the database, rewritten in place by the services. */
  class Database {
    var transactions: seq<Transaction>
    var aggregates: seq<MonthlyAggregate>

    constructor (transactions: seq<Transaction>, aggregates: seq<MonthlyAggregate>)
      ensures this.transactions == transactions && this.aggregates == aggregates
    {
      this.transactions := transactions;
      this.aggregates := aggregates;
    }
  }
}
