// The CSV import/export service for transaction details: cell cleaning, the
// frame's format check, the per-row validation loop with its prefix-based
// duplicate test against the committed store, the commit-then-rebuild of the
// monthly aggregates, and the shaping of exported rows.

module TransactionImport {
  import opened Common
  import opened Store
  import opened Aggregation

  // ------------------------------------------------------------------ columns

  /** The canonical CSV columns, in file order. */
  const CsvColumns: seq<string> := ["交易时间", "类型", "金额", "收支", "支付方式", "交易对方", "商品名称", "备注"]

  /** The columns every imported row must fill, in the order they are checked. */
  const RequiredFields: seq<string> := ["交易时间", "类型", "金额", "收支"]

  // ------------------------------------------------------------------ cleaning

  /** A cell as text: "" for a missing cell or one that trims to "nan" in any case, else the trimmed text. */
  function CleanString(c: Cell): (r: string)
    ensures r == "" || (c.Text? && r == Trim(c.text))
  {
    match c
    case Missing => ""
    case Text(s) =>
      var t := Trim(s);
      if Lower(t) == "nan" then "" else t
  }

  /** Whether a cell counts as blank: missing, or trimming to "" or "nan". */
  predicate IsEmptyValue(c: Cell) {
    c.Missing? || Trim(c.text) == "" || Lower(Trim(c.text)) == "nan"
  }

  /** A cleaned value has no surrounding whitespace. */
  lemma CleanedIsTrimmed(c: Cell)
    ensures Trim(CleanString(c)) == CleanString(c)
  {
    if CleanString(c) == "" {
      TrimEmpty();
    } else {
      var s := c.text;
      assert CleanString(c) == Trim(s);
      TrimIdempotent(s);
    }
  }

  /** A value is empty exactly when it cleans to the empty string. */
  lemma EmptyIffCleansToEmpty(c: Cell)
    ensures IsEmptyValue(c) <==> CleanString(c) == ""
  {
  }

  /** The text of a nullable column: NULL for "", otherwise the text. */
  function OptionalText(s: string): (r: Option<string>)
    ensures r.None? <==> s == ""
    ensures r.Some? ==> r.value == s
  {
    if s == "" then None else Some(s)
  }

  // ---------------------------------------------------------------- the frame

  /** One frame row: column name to cell. */
  type Row = map<string, Cell>

  /** A frame as read from the CSV text: its column names and its rows. */
  datatype Frame = Frame(columns: seq<string>, rows: seq<Row>)

  /** Every row has a cell for exactly the frame's columns. */
  predicate WellFormed(f: Frame) {
    forall i :: 0 <= i < |f.rows| ==> f.rows[i].Keys == set c | c in f.columns
  }

  /** The row has a cell for each canonical column. */
  predicate HasCsvColumns(row: Row) {
    && "交易时间" in row && "类型" in row && "金额" in row && "收支" in row
    && "支付方式" in row && "交易对方" in row && "商品名称" in row && "备注" in row
  }

  predicate AllHaveCsvColumns(rows: seq<Row>) {
    forall i :: 0 <= i < |rows| ==> HasCsvColumns(rows[i])
  }

  /**
   * row[column]. The format check guarantees every canonical column is present
   * (ValidFrameRowsHaveColumns); an absent one reads as missing.
   */
  function CellOf(row: Row, column: string): Cell {
    if column in row then row[column] else Missing
  }

  /** The canonical columns the frame lacks, in canonical order. */
  function MissingColumns(columns: seq<string>): (r: seq<string>)
    ensures forall c :: c in r <==> c in CsvColumns && c !in columns
  {
    Filter(CsvColumns, (c: string) => c !in columns)
  }

  /** The format check: every canonical column present and at least one data row. */
  function ValidateFormat(f: Frame): (r: Result<(), string>)
    ensures r.Ok? <==> (forall c :: c in CsvColumns ==> c in f.columns) && |f.rows| > 0
    ensures r.Err? && MissingColumns(f.columns) != [] ==>
      r.error == "缺少必需的列: " + JoinWith(MissingColumns(f.columns), ", ")
    ensures r.Err? && MissingColumns(f.columns) == [] ==> r.error == "CSV文件没有数据行"
  {
    var missing := MissingColumns(f.columns);
    NoneMissing(f.columns);
    if missing != [] then Err("缺少必需的列: " + JoinWith(missing, ", "))
    else if |f.rows| == 0 then Err("CSV文件没有数据行")
    else Ok(())
  }

  lemma NoneMissing(columns: seq<string>)
    ensures MissingColumns(columns) == [] <==> forall c :: c in CsvColumns ==> c in columns
  {
    var missing := MissingColumns(columns);
    if missing != [] {
      assert missing[0] in missing;
    }
  }

  /** ', '.join(parts). */
  function JoinWith(parts: seq<string>, sep: string): string {
    if parts == [] then "" else if |parts| == 1 then parts[0] else parts[0] + sep + JoinWith(parts[1..], sep)
  }

  /** A frame that passes the format check has the canonical columns in every row. */
  lemma ValidFrameRowsHaveColumns(f: Frame)
    requires WellFormed(f) && ValidateFormat(f).Ok?
    ensures AllHaveCsvColumns(f.rows)
  {
    forall i | 0 <= i < |f.rows| ensures HasCsvColumns(f.rows[i]) {
      assert forall c :: c in CsvColumns ==> c in f.columns;
      assert CsvColumns[0] in f.columns && CsvColumns[1] in f.columns && CsvColumns[2] in f.columns;
      assert CsvColumns[3] in f.columns && CsvColumns[4] in f.columns && CsvColumns[5] in f.columns;
      assert CsvColumns[6] in f.columns && CsvColumns[7] in f.columns;
    }
  }

  // -------------------------------------------------------------- duplicates

  /**
   * The counterparty / item-name test: a non-blank incoming value matches a
   * stored value equal to it or starting with it; a blank one matches only NULL.
   */
  predicate FieldMatches(stored: Option<string>, incoming: string) {
    if incoming != "" then stored.Some? && (stored.value == incoming || StartsWith(stored.value, incoming))
    else stored.None?
  }

  /** The exact-match alternative adds nothing: a stored value equal to the incoming one also starts with it. */
  lemma ExactMatchIsPrefixMatch(stored: Option<string>, incoming: string)
    requires incoming != ""
    ensures FieldMatches(stored, incoming) <==> stored.Some? && StartsWith(stored.value, incoming)
  {
  }

  predicate SameRecord(t: Transaction, time: DateTime, amount: real, counterparty: string, itemName: string) {
    t.time == time && t.amount == amount && FieldMatches(t.counterparty, counterparty) && FieldMatches(t.itemName, itemName)
  }

  /** Whether the committed store already holds a matching transaction. */
  predicate CheckDuplicate(store: seq<Transaction>, time: DateTime, amount: real, counterparty: string, itemName: string) {
    exists i :: 0 <= i < |store| && SameRecord(store[i], time, amount, counterparty, itemName)
  }

  // -------------------------------------------------------------- one row

  /**
   * What a row's validation sees: the committed store it deduplicates against,
   * the deduplication switch, and the two parsers it calls (pd.to_datetime
   * with its error text, float() with None for a value it cannot convert).
   */
  datatype ImportContext = ImportContext(
    store: seq<Transaction>,
    dedup: bool,
    parseTime: Cell -> Result<DateTime, string>,
    parseAmount: Cell -> Option<real>)

  /** How one row ends: added, skipped with a reason, or reported as a duplicate. */
  datatype RowOutcome =
    | Imported(transaction: Transaction)
    | Skipped(reason: string)
    | Duplicate(time: DateTime, amount: real, counterparty: string, itemName: string)

  /** The eight canonical cells of a row, read once. */
  datatype RowCells = RowCells(
    time: Cell, category: Cell, amount: Cell, direction: Cell,
    paymentMethod: Cell, counterparty: Cell, itemName: Cell, remarks: Cell)

  function CellsOf(row: Row): (c: RowCells)
    ensures c.time == CellOf(row, "交易时间") && c.category == CellOf(row, "类型")
    ensures c.amount == CellOf(row, "金额") && c.direction == CellOf(row, "收支")
    ensures c.paymentMethod == CellOf(row, "支付方式") && c.counterparty == CellOf(row, "交易对方")
    ensures c.itemName == CellOf(row, "商品名称") && c.remarks == CellOf(row, "备注")
  {
    RowCells(CellOf(row, "交易时间"), CellOf(row, "类型"), CellOf(row, "金额"), CellOf(row, "收支"),
      CellOf(row, "支付方式"), CellOf(row, "交易对方"), CellOf(row, "商品名称"), CellOf(row, "备注"))
  }

  /** The first of the four required cells that is blank, in check order. */
  function FirstEmptyField(c: RowCells): (r: Option<string>)
    ensures r.Some? ==> r.value in RequiredFields
    ensures r == Some("交易时间") <==> IsEmptyValue(c.time)
    ensures r == Some("类型") <==> !IsEmptyValue(c.time) && IsEmptyValue(c.category)
    ensures r == Some("金额") <==> !IsEmptyValue(c.time) && !IsEmptyValue(c.category) && IsEmptyValue(c.amount)
    ensures r.None? <==>
      !IsEmptyValue(c.time) && !IsEmptyValue(c.category) && !IsEmptyValue(c.amount) && !IsEmptyValue(c.direction)
  {
    if IsEmptyValue(c.time) then Some("交易时间")
    else if IsEmptyValue(c.category) then Some("类型")
    else if IsEmptyValue(c.amount) then Some("金额")
    else if IsEmptyValue(c.direction) then Some("收支")
    else None
  }

  function RequiredFieldMessage(field: string): string {
    "必需字段 '" + field + "' 为空"
  }

  const TimeFormatPrefix: string := "交易时间格式错误: "
  const AmountFormatMessage: string := "金额格式错误，必须为数字"
  const NegativeAmountMessage: string := "金额不能为负数"
  const BlankCategoryMessage: string := "交易类型不能为空"
  const BlankDirectionMessage: string := "收支类型不能为空"
  const DuplicateReason: string := "数据重复：相同时间、金额、交易对方和商品名称的记录已存在"

  /** The checks of one row, in the order the service makes them. */
  function ClassifyRow(row: Row, ctx: ImportContext): RowOutcome {
    Classify(CellsOf(row), ctx)
  }

  /** The checks on a row's cells: required cells, the time, the amount, its sign, then the rest. */
  function Classify(c: RowCells, ctx: ImportContext): RowOutcome {
    match FirstEmptyField(c)
    case Some(field) => Skipped(RequiredFieldMessage(field))
    case None =>
      match ctx.parseTime(c.time)
      case Err(e) => Skipped(TimeFormatPrefix + e)
      case Ok(time) =>
        match ctx.parseAmount(c.amount)
        case None => Skipped(AmountFormatMessage)
        case Some(amount) =>
          if amount < 0.0 then Skipped(NegativeAmountMessage)
          else CheckParsed(c, ctx.store, ctx.dedup, time, amount)
  }

  /** The transaction a checked row becomes: cleaned text, NULL for each blank optional column. */
  function NewTransaction(c: RowCells, time: DateTime, amount: real): Transaction {
    Transaction(time, CleanString(c.category), amount, CleanString(c.direction),
      OptionalText(CleanString(c.paymentMethod)), OptionalText(CleanString(c.counterparty)),
      OptionalText(CleanString(c.itemName)), OptionalText(CleanString(c.remarks)))
  }

  /** The checks after the time and the amount have parsed: blank text, then the duplicate test. */
  function CheckParsed(c: RowCells, store: seq<Transaction>, dedup: bool, time: DateTime, amount: real): RowOutcome {
    if CleanString(c.category) == "" then Skipped(BlankCategoryMessage)
    else if CleanString(c.direction) == "" then Skipped(BlankDirectionMessage)
    else if dedup && CheckDuplicate(store, time, amount, CleanString(c.counterparty), CleanString(c.itemName)) then
      Duplicate(time, amount, CleanString(c.counterparty), CleanString(c.itemName))
    else Imported(NewTransaction(c, time, amount))
  }

  /** Whether the cells pass every check up to the duplicate test, and with which time and amount. */
  predicate PassesChecks(c: RowCells, ctx: ImportContext, time: DateTime, amount: real) {
    && FirstEmptyField(c).None?
    && ctx.parseTime(c.time) == Ok(time)
    && ctx.parseAmount(c.amount) == Some(amount)
    && amount >= 0.0
  }

  /** Past the required-cell check, the two blank-text checks never fire. */
  lemma CheckedTextNotBlank(c: RowCells)
    requires FirstEmptyField(c).None?
    ensures CleanString(c.category) != "" && CleanString(c.direction) != ""
  {
    EmptyIffCleansToEmpty(c.category);
    EmptyIffCleansToEmpty(c.direction);
  }

  /** A row that reaches the final checks is a duplicate or added, never skipped. */
  lemma ClassifyPassed(c: RowCells, ctx: ImportContext, time: DateTime, amount: real)
    requires PassesChecks(c, ctx, time, amount)
    ensures Classify(c, ctx) == CheckParsed(c, ctx.store, ctx.dedup, time, amount)
    ensures !Classify(c, ctx).Skipped?
  {
    CheckedTextNotBlank(c);
  }

  /** Every outcome other than a skip comes from a row that passed the checks. */
  lemma NotSkippedPassed(c: RowCells, ctx: ImportContext)
    requires !Classify(c, ctx).Skipped?
    ensures ctx.parseTime(c.time).Ok? && ctx.parseAmount(c.amount).Some?
    ensures PassesChecks(c, ctx, ctx.parseTime(c.time).value, ctx.parseAmount(c.amount).value)
  {
  }

  /** The reasons a row can be skipped for. */
  predicate KnownSkipReason(reason: string) {
    || (exists f :: f in RequiredFields && reason == RequiredFieldMessage(f))
    || StartsWith(reason, TimeFormatPrefix)
    || reason == AmountFormatMessage
    || reason == NegativeAmountMessage
  }

  /**
   * Past the required-cell check, a skip reason is a parse or sign message:
   * never a required-field message and never one of the two blank-text ones.
   */
  lemma LaterSkipReasons(c: RowCells, ctx: ImportContext)
    requires FirstEmptyField(c).None?
    ensures Classify(c, ctx).Skipped? ==>
      || StartsWith(Classify(c, ctx).reason, TimeFormatPrefix)
      || Classify(c, ctx).reason == AmountFormatMessage
      || Classify(c, ctx).reason == NegativeAmountMessage
  {
    match ctx.parseTime(c.time)
    case Err(e) =>
      assert Classify(c, ctx) == Skipped(TimeFormatPrefix + e);
      assert (TimeFormatPrefix + e)[..|TimeFormatPrefix|] == TimeFormatPrefix;
    case Ok(time) =>
      match ctx.parseAmount(c.amount)
      case None =>
        assert Classify(c, ctx) == Skipped(AmountFormatMessage);
      case Some(amount) =>
        if amount >= 0.0 {
          ClassifyPassed(c, ctx, time, amount);
        } else {
          assert Classify(c, ctx) == Skipped(NegativeAmountMessage);
        }
  }

  /** None of the reasons the earlier checks give is a blank-text message. */
  lemma NotBlankTextMessage(reason: string)
    requires KnownSkipReason(reason)
    ensures reason != BlankCategoryMessage && reason != BlankDirectionMessage
  {
    assert BlankCategoryMessage[0] == '交' && BlankCategoryMessage[2] == '类';
    assert BlankDirectionMessage[0] == '收';
    if StartsWith(reason, TimeFormatPrefix) {
      assert reason[2] == TimeFormatPrefix[2] == '时';
    } else if reason != AmountFormatMessage && reason != NegativeAmountMessage {
      var f :| f in RequiredFields && reason == RequiredFieldMessage(f);
      assert reason[0] == '必';
    }
  }

  /**
   * A skipped row's reason is one of the four the service can produce: the
   * blank category and blank direction checks after cleaning are never reached,
   * because the required-field check has already rejected those cells.
   */
  lemma SkipReasons(c: RowCells, ctx: ImportContext)
    ensures Classify(c, ctx).Skipped? ==> KnownSkipReason(Classify(c, ctx).reason)
    ensures Classify(c, ctx) != Skipped(BlankCategoryMessage)
    ensures Classify(c, ctx) != Skipped(BlankDirectionMessage)
  {
    var r := Classify(c, ctx);
    if FirstEmptyField(c).None? {
      LaterSkipReasons(c, ctx);
    } else {
      var f := FirstEmptyField(c).value;
      assert r == Skipped(RequiredFieldMessage(f));
    }
    if r.Skipped? {
      NotBlankTextMessage(r.reason);
    }
  }

  /** A row is skipped for a blank required field exactly when one of its four required cells is blank. */
  lemma RequiredFieldReason(c: RowCells, ctx: ImportContext)
    ensures (IsEmptyValue(c.time) || IsEmptyValue(c.category) || IsEmptyValue(c.amount) || IsEmptyValue(c.direction)) <==>
      exists f :: f in RequiredFields && Classify(c, ctx) == Skipped(RequiredFieldMessage(f))
  {
    if FirstEmptyField(c).None? {
      LaterSkipReasons(c, ctx);
      forall f | f in RequiredFields ensures Classify(c, ctx) != Skipped(RequiredFieldMessage(f)) {
        assert RequiredFieldMessage(f)[0] == '必';
        assert TimeFormatPrefix[0] == '交' && AmountFormatMessage[0] == '金' && NegativeAmountMessage[0] == '金';
      }
    } else {
      var f := FirstEmptyField(c).value;
      assert Classify(c, ctx) == Skipped(RequiredFieldMessage(f));
    }
  }

  /**
   * A row is a duplicate exactly when deduplication is on, the row passes its
   * own checks, and the store holds a transaction with the same time and
   * amount whose counterparty and item name match the cleaned cells.
   */
  lemma DuplicateIff(row: Row, ctx: ImportContext)
    ensures ClassifyRow(row, ctx).Duplicate? <==>
      && ctx.dedup
      && ctx.parseTime(CellsOf(row).time).Ok? && ctx.parseAmount(CellsOf(row).amount).Some?
      && PassesChecks(CellsOf(row), ctx, ctx.parseTime(CellsOf(row).time).value, ctx.parseAmount(CellsOf(row).amount).value)
      && CheckDuplicate(ctx.store, ctx.parseTime(CellsOf(row).time).value, ctx.parseAmount(CellsOf(row).amount).value,
           CleanString(CellOf(row, "交易对方")), CleanString(CellOf(row, "商品名称")))
  {
    var c := CellsOf(row);
    if ClassifyRow(row, ctx).Duplicate? {
      NotSkippedPassed(c, ctx);
    }
    if ctx.parseTime(c.time).Ok? && ctx.parseAmount(c.amount).Some?
      && PassesChecks(c, ctx, ctx.parseTime(c.time).value, ctx.parseAmount(c.amount).value) {
      ClassifyPassed(c, ctx, ctx.parseTime(c.time).value, ctx.parseAmount(c.amount).value);
    }
  }

  /** With deduplication off, no row is a duplicate. */
  lemma NotDuplicateWithoutDedup(row: Row, ctx: ImportContext)
    requires !ctx.dedup
    ensures !ClassifyRow(row, ctx).Duplicate?
  {
    var c := CellsOf(row);
    if ClassifyRow(row, ctx).Duplicate? {
      NotSkippedPassed(c, ctx);
    }
  }

  /**
   * An added transaction is the row's cleaned cells: parsed time and a
   * non-negative amount, non-blank category and direction, and NULL exactly
   * for each blank optional column.
   */
  lemma ImportedRowShape(row: Row, ctx: ImportContext)
    requires ClassifyRow(row, ctx).Imported?
    ensures ctx.parseTime(CellOf(row, "交易时间")) == Ok(ClassifyRow(row, ctx).transaction.time)
    ensures ctx.parseAmount(CellOf(row, "金额")) == Some(ClassifyRow(row, ctx).transaction.amount)
    ensures ClassifyRow(row, ctx).transaction.amount >= 0.0
    ensures ClassifyRow(row, ctx).transaction.category == CleanString(CellOf(row, "类型")) != ""
    ensures ClassifyRow(row, ctx).transaction.direction == CleanString(CellOf(row, "收支")) != ""
    ensures ClassifyRow(row, ctx).transaction.paymentMethod.None? <==> IsEmptyValue(CellOf(row, "支付方式"))
    ensures ClassifyRow(row, ctx).transaction.counterparty.None? <==> IsEmptyValue(CellOf(row, "交易对方"))
    ensures ClassifyRow(row, ctx).transaction.itemName.None? <==> IsEmptyValue(CellOf(row, "商品名称"))
    ensures ClassifyRow(row, ctx).transaction.remarks.None? <==> IsEmptyValue(CellOf(row, "备注"))
  {
    var c := CellsOf(row);
    NotSkippedPassed(c, ctx);
    var time, amount := ctx.parseTime(c.time).value, ctx.parseAmount(c.amount).value;
    ClassifyPassed(c, ctx, time, amount);
    assert ClassifyRow(row, ctx).transaction == NewTransaction(c, time, amount);
    CheckedTextNotBlank(c);
    EmptyIffCleansToEmpty(c.paymentMethod);
    EmptyIffCleansToEmpty(c.counterparty);
    EmptyIffCleansToEmpty(c.itemName);
    EmptyIffCleansToEmpty(c.remarks);
  }

  // -------------------------------------------------------------- the row loop

  /** A skipped row as reported: spreadsheet row number, the raw text of its eight cells, the reason. */
  datatype ErrorDetail = ErrorDetail(row: int, data: seq<string>, reason: string)

  /** A duplicate row as reported. */
  datatype DuplicateDetail = DuplicateDetail(row: int, transactionTime: string, amount: real,
                                             counterparty: string, itemName: string, reason: string)

  /** The raw text of a row's canonical cells, str(row.get(column, "")). */
  function RowText(row: Row): (r: seq<string>)
    ensures |r| == |CsvColumns|
  {
    seq(|CsvColumns|, k requires 0 <= k < |CsvColumns| =>
      if CsvColumns[k] in row then CellString(row[CsvColumns[k]]) else "")
  }

  /** What one row contributes: its transaction, its error entry or its duplicate entry. */
  datatype RowReport =
    | Added(transaction: Transaction)
    | Rejected(error: ErrorDetail)
    | Repeated(duplicate: DuplicateDetail)

  /** The report of row `index` whose checks ended in `o`; the service numbers rows from 2, below the header line. */
  function Report(o: RowOutcome, row: Row, index: int): RowReport {
    match o
    case Imported(t) => Added(t)
    case Skipped(reason) => Rejected(ErrorDetail(index + 2, RowText(row), reason))
    case Duplicate(time, amount, cp, item) =>
      Repeated(DuplicateDetail(index + 2, DateTimeString(time), amount, cp, item, DuplicateReason))
  }

  /** The report of every row, under a per-row check `classify`. */
  function Reports(rows: seq<Row>, classify: Row -> RowOutcome): (rs: seq<RowReport>)
    ensures |rs| == |rows|
  {
    if rows == [] then []
    else Reports(rows[..|rows| - 1], classify) + [Report(classify(rows[|rows| - 1]), rows[|rows| - 1], |rows| - 1)]
  }

  /** Entry i of the reports is row i's report. */
  lemma {:induction false} ReportAt(rows: seq<Row>, i: int, classify: Row -> RowOutcome)
    requires 0 <= i < |rows|
    ensures Reports(rows, classify)[i] == Report(classify(rows[i]), rows[i], i)
  {
    if i < |rows| - 1 {
      ReportAt(rows[..|rows| - 1], i, classify);
    }
  }

  /** Each entry carries the number of its own row. */
  predicate Numbered(rs: seq<RowReport>) {
    && (forall i :: 0 <= i < |rs| && rs[i].Rejected? ==> rs[i].error.row == i + 2)
    && (forall i :: 0 <= i < |rs| && rs[i].Repeated? ==> rs[i].duplicate.row == i + 2)
  }

  lemma ReportsNumbered(rows: seq<Row>, classify: Row -> RowOutcome)
    ensures Numbered(Reports(rows, classify))
  {
    var rs := Reports(rows, classify);
    forall i | 0 <= i < |rs|
      ensures (rs[i].Rejected? ==> rs[i].error.row == i + 2) && (rs[i].Repeated? ==> rs[i].duplicate.row == i + 2)
    {
      ReportAt(rows, i, classify);
    }
  }

  /** What the loop has gathered: the transactions added and the two detail lists. */
  datatype Tally = Tally(imported: seq<Transaction>, errors: seq<ErrorDetail>, duplicates: seq<DuplicateDetail>)

  /** The tally after one more row. */
  function TallyStep(tally: Tally, r: RowReport): Tally {
    match r
    case Added(t) => tally.(imported := tally.imported + [t])
    case Rejected(e) => tally.(errors := tally.errors + [e])
    case Repeated(d) => tally.(duplicates := tally.duplicates + [d])
  }

  /** The tally after the first n rows. */
  function TallyOf(rs: seq<RowReport>, n: nat): Tally
    requires n <= |rs|
  {
    if n == 0 then Tally([], [], []) else TallyStep(TallyOf(rs, n - 1), rs[n - 1])
  }

  /** Every row lands in exactly one of the three lists. */
  lemma {:induction false} TallyPartition(rs: seq<RowReport>, n: nat)
    requires n <= |rs|
    ensures |TallyOf(rs, n).imported| + |TallyOf(rs, n).errors| + |TallyOf(rs, n).duplicates| == n
  {
    if n > 0 {
      TallyPartition(rs, n - 1);
    }
  }

  /** Each error entry is the entry of the row it names, rows ascending. */
  lemma {:induction false} ErrorsAreRejectedRows(rs: seq<RowReport>, n: nat)
    requires n <= |rs| && Numbered(rs)
    ensures forall k :: 0 <= k < |TallyOf(rs, n).errors| ==>
      2 <= TallyOf(rs, n).errors[k].row < n + 2 && rs[TallyOf(rs, n).errors[k].row - 2] == Rejected(TallyOf(rs, n).errors[k])
    ensures forall k, l :: 0 <= k < l < |TallyOf(rs, n).errors| ==> TallyOf(rs, n).errors[k].row < TallyOf(rs, n).errors[l].row
  {
    if n > 0 {
      ErrorsAreRejectedRows(rs, n - 1);
    }
  }

  /** Each rejected row's entry is in the error list. */
  lemma {:induction false} RejectedRowsAreListed(rs: seq<RowReport>, n: nat)
    requires n <= |rs|
    ensures forall i :: 0 <= i < n && rs[i].Rejected? ==> rs[i].error in TallyOf(rs, n).errors
  {
    if n > 0 {
      RejectedRowsAreListed(rs, n - 1);
      assert forall x :: x in TallyOf(rs, n - 1).errors ==> x in TallyOf(rs, n).errors;
    }
  }

  /** Each duplicate entry is the entry of the row it names, rows ascending. */
  lemma {:induction false} DuplicatesAreRepeatedRows(rs: seq<RowReport>, n: nat)
    requires n <= |rs| && Numbered(rs)
    ensures forall k :: 0 <= k < |TallyOf(rs, n).duplicates| ==>
      2 <= TallyOf(rs, n).duplicates[k].row < n + 2
      && rs[TallyOf(rs, n).duplicates[k].row - 2] == Repeated(TallyOf(rs, n).duplicates[k])
    ensures forall k, l :: 0 <= k < l < |TallyOf(rs, n).duplicates| ==>
      TallyOf(rs, n).duplicates[k].row < TallyOf(rs, n).duplicates[l].row
  {
    if n > 0 {
      DuplicatesAreRepeatedRows(rs, n - 1);
    }
  }

  /** Each repeated row's entry is in the duplicate list. */
  lemma {:induction false} RepeatedRowsAreListed(rs: seq<RowReport>, n: nat)
    requires n <= |rs|
    ensures forall i :: 0 <= i < n && rs[i].Repeated? ==> rs[i].duplicate in TallyOf(rs, n).duplicates
  {
    if n > 0 {
      RepeatedRowsAreListed(rs, n - 1);
      assert forall x :: x in TallyOf(rs, n - 1).duplicates ==> x in TallyOf(rs, n).duplicates;
    }
  }

  /** The added transactions are those of the added rows: all of them, and nothing else. */
  lemma {:induction false} ImportedAreAddedRows(rs: seq<RowReport>, n: nat)
    requires n <= |rs|
    ensures forall t :: t in TallyOf(rs, n).imported ==> Added(t) in rs[..n]
    ensures forall i :: 0 <= i < n && rs[i].Added? ==> rs[i].transaction in TallyOf(rs, n).imported
  {
    if n > 0 {
      ImportedAreAddedRows(rs, n - 1);
      assert rs[..n] == rs[..n - 1] + [rs[n - 1]];
      assert forall x :: x in TallyOf(rs, n - 1).imported ==> x in TallyOf(rs, n).imported;
    }
  }

  /** Rows that are never duplicates leave the duplicate list empty. */
  lemma {:induction false} NoRepeatedRows(rs: seq<RowReport>, n: nat)
    requires n <= |rs|
    requires forall i :: 0 <= i < n ==> !rs[i].Repeated?
    ensures TallyOf(rs, n).duplicates == []
  {
    if n > 0 {
      NoRepeatedRows(rs, n - 1);
    }
  }

  /** The tally of a whole frame under a per-row check. */
  function FrameTally(rows: seq<Row>, classify: Row -> RowOutcome): Tally {
    TallyOf(Reports(rows, classify), |rows|)
  }

  /** The service's per-row check. */
  function Classifier(ctx: ImportContext): Row -> RowOutcome {
    row => ClassifyRow(row, ctx)
  }

  /** The tally the service builds for a frame. */
  function ImportTally(rows: seq<Row>, ctx: ImportContext): Tally {
    FrameTally(rows, Classifier(ctx))
  }

  /** Entry k of the frame's error list is the entry of the skipped row it names: its raw cells and its reason. */
  lemma ErrorEntriesAreSkippedRows(rows: seq<Row>, classify: Row -> RowOutcome)
    ensures forall e :: e in FrameTally(rows, classify).errors ==>
      2 <= e.row < |rows| + 2 && classify(rows[e.row - 2]) == Skipped(e.reason)
      && e.data == RowText(rows[e.row - 2])
  {
    forall e | e in FrameTally(rows, classify).errors
      ensures 2 <= e.row < |rows| + 2 && classify(rows[e.row - 2]) == Skipped(e.reason)
        && e.data == RowText(rows[e.row - 2])
    {
      ErrorEntryIsSkippedRow(rows, classify, e);
    }
  }

  lemma ErrorEntryIsSkippedRow(rows: seq<Row>, classify: Row -> RowOutcome, e: ErrorDetail)
    requires e in FrameTally(rows, classify).errors
    ensures 2 <= e.row < |rows| + 2
    ensures Report(classify(rows[e.row - 2]), rows[e.row - 2], e.row - 2) == Rejected(e)
  {
    var rs := Reports(rows, classify);
    var errors := TallyOf(rs, |rows|).errors;
    ReportsNumbered(rows, classify);
    ErrorsAreRejectedRows(rs, |rows|);
    var k :| 0 <= k < |errors| && errors[k] == e;
    assert rs[e.row - 2] == Rejected(e);
    ReportAt(rows, e.row - 2, classify);
  }

  /** The frame's error list is in row order. */
  lemma ErrorEntriesAscending(rows: seq<Row>, classify: Row -> RowOutcome)
    ensures forall k, l :: 0 <= k < l < |FrameTally(rows, classify).errors| ==>
      FrameTally(rows, classify).errors[k].row < FrameTally(rows, classify).errors[l].row
  {
    ReportsNumbered(rows, classify);
    ErrorsAreRejectedRows(Reports(rows, classify), |rows|);
  }

  /** Every skipped row has its entry in the frame's error list. */
  lemma SkippedRowsAreListed(rows: seq<Row>, classify: Row -> RowOutcome)
    ensures forall i :: 0 <= i < |rows| && classify(rows[i]).Skipped? ==>
      ErrorDetail(i + 2, RowText(rows[i]), classify(rows[i]).reason) in FrameTally(rows, classify).errors
  {
    RejectedRowsAreListed(Reports(rows, classify), |rows|);
    forall i | 0 <= i < |rows| && classify(rows[i]).Skipped?
      ensures ErrorDetail(i + 2, RowText(rows[i]), classify(rows[i]).reason) in FrameTally(rows, classify).errors
    {
      ReportAt(rows, i, classify);
    }
  }

  /** Each entry of the frame's duplicate list is the entry of the duplicate row it names, with the fixed reason. */
  lemma DuplicateEntriesAreDuplicateRows(rows: seq<Row>, classify: Row -> RowOutcome)
    ensures forall d :: d in FrameTally(rows, classify).duplicates ==>
      2 <= d.row < |rows| + 2 && classify(rows[d.row - 2]).Duplicate? && d.reason == DuplicateReason
      && d.transactionTime == DateTimeString(classify(rows[d.row - 2]).time)
      && d.amount == classify(rows[d.row - 2]).amount
  {
    forall d | d in FrameTally(rows, classify).duplicates
      ensures 2 <= d.row < |rows| + 2 && classify(rows[d.row - 2]).Duplicate? && d.reason == DuplicateReason
        && d.transactionTime == DateTimeString(classify(rows[d.row - 2]).time)
        && d.amount == classify(rows[d.row - 2]).amount
    {
      DuplicateEntryIsDuplicateRow(rows, classify, d);
    }
  }

  lemma DuplicateEntryIsDuplicateRow(rows: seq<Row>, classify: Row -> RowOutcome, d: DuplicateDetail)
    requires d in FrameTally(rows, classify).duplicates
    ensures 2 <= d.row < |rows| + 2
    ensures Report(classify(rows[d.row - 2]), rows[d.row - 2], d.row - 2) == Repeated(d)
  {
    var rs := Reports(rows, classify);
    var dups := TallyOf(rs, |rows|).duplicates;
    ReportsNumbered(rows, classify);
    DuplicatesAreRepeatedRows(rs, |rows|);
    var k :| 0 <= k < |dups| && dups[k] == d;
    assert rs[d.row - 2] == Repeated(d);
    ReportAt(rows, d.row - 2, classify);
  }

  /** The frame's duplicate list is in row order. */
  lemma DuplicateEntriesAscending(rows: seq<Row>, classify: Row -> RowOutcome)
    ensures forall k, l :: 0 <= k < l < |FrameTally(rows, classify).duplicates| ==>
      FrameTally(rows, classify).duplicates[k].row < FrameTally(rows, classify).duplicates[l].row
  {
    ReportsNumbered(rows, classify);
    DuplicatesAreRepeatedRows(Reports(rows, classify), |rows|);
  }

  /** Every duplicate row has an entry in the frame's duplicate list. */
  lemma DuplicateRowsAreListed(rows: seq<Row>, classify: Row -> RowOutcome)
    ensures forall i :: 0 <= i < |rows| && classify(rows[i]).Duplicate? ==>
      exists d :: d in FrameTally(rows, classify).duplicates && d.row == i + 2
  {
    var rs := Reports(rows, classify);
    RepeatedRowsAreListed(rs, |rows|);
    forall i | 0 <= i < |rows| && classify(rows[i]).Duplicate?
      ensures exists d :: d in FrameTally(rows, classify).duplicates && d.row == i + 2
    {
      ReportAt(rows, i, classify);
      assert rs[i].duplicate in FrameTally(rows, classify).duplicates && rs[i].duplicate.row == i + 2;
    }
  }

  /** The added transactions are exactly the transactions of the added rows. */
  lemma ImportedAreImportedRows(rows: seq<Row>, classify: Row -> RowOutcome)
    ensures forall t :: t in FrameTally(rows, classify).imported ==>
      exists i :: 0 <= i < |rows| && classify(rows[i]) == Imported(t)
    ensures forall i :: 0 <= i < |rows| && classify(rows[i]).Imported? ==>
      classify(rows[i]).transaction in FrameTally(rows, classify).imported
  {
    var rs := Reports(rows, classify);
    ImportedAreAddedRows(rs, |rows|);
    assert rs[..|rows|] == rs;
    forall t | t in FrameTally(rows, classify).imported
      ensures exists i :: 0 <= i < |rows| && classify(rows[i]) == Imported(t)
    {
      var i :| 0 <= i < |rows| && rs[i] == Added(t);
      ReportAt(rows, i, classify);
    }
    forall i | 0 <= i < |rows| && classify(rows[i]).Imported?
      ensures classify(rows[i]).transaction in FrameTally(rows, classify).imported
    {
      ReportAt(rows, i, classify);
    }
  }

  /** Every row lands in exactly one of the frame's three lists. */
  lemma FramePartition(rows: seq<Row>, classify: Row -> RowOutcome)
    ensures |FrameTally(rows, classify).imported| + |FrameTally(rows, classify).errors|
      + |FrameTally(rows, classify).duplicates| == |rows|
  {
    TallyPartition(Reports(rows, classify), |rows|);
  }

  /** With deduplication off, no row is reported as a duplicate. */
  lemma NoDuplicatesWithoutDedup(rows: seq<Row>, ctx: ImportContext)
    requires !ctx.dedup
    ensures ImportTally(rows, ctx).duplicates == []
  {
    var rs := Reports(rows, Classifier(ctx));
    forall i | 0 <= i < |rows| ensures !rs[i].Repeated? {
      ReportAt(rows, i, Classifier(ctx));
      NotDuplicateWithoutDedup(rows[i], ctx);
    }
    NoRepeatedRows(rs, |rows|);
  }

  /** Every added transaction comes from a row that passed all checks: amount non-negative, category and direction non-blank and trimmed. */
  lemma ImportedAreValid(rows: seq<Row>, ctx: ImportContext)
    ensures forall t :: t in ImportTally(rows, ctx).imported ==>
      t.amount >= 0.0 && t.category != "" && t.direction != ""
      && t.category == Trim(t.category) && t.direction == Trim(t.direction)
  {
    ImportedAreImportedRows(rows, Classifier(ctx));
    forall t | t in ImportTally(rows, ctx).imported
      ensures t.amount >= 0.0 && t.category != "" && t.direction != ""
        && t.category == Trim(t.category) && t.direction == Trim(t.direction)
    {
      var i :| 0 <= i < |rows| && Classifier(ctx)(rows[i]) == Imported(t);
      ImportedRowShape(rows[i], ctx);
      CleanedIsTrimmed(CellOf(rows[i], "类型"));
      CleanedIsTrimmed(CellOf(rows[i], "收支"));
    }
  }

  // -------------------------------------------------------------- the service

  /** The service's answer. */
  datatype ImportResult = ImportResult(
    success: bool, message: string,
    importedCount: nat, skippedCount: nat, duplicateCount: nat,
    errorDetails: seq<ErrorDetail>, duplicateDetails: seq<DuplicateDetail>)

  function Failed(message: string): (r: ImportResult)
    ensures !r.success && r.importedCount == 0 && r.skippedCount == 0 && r.duplicateCount == 0
    ensures r.errorDetails == [] && r.duplicateDetails == [] && r.message == message
  {
    ImportResult(false, message, 0, 0, 0, [], [])
  }

  /**
   * Empties the aggregate table, commits, and rebuilds every month. The rebuild
   * reads no committed aggregate rows (the table was just emptied and its new
   * rows are not flushed), so it runs with an empty visible set.
   * `deleteFailure` is an exception from the delete or its commit, which rolls
   * the delete back and is raised again; `aggFailure` is one inside the
   * rebuild, which the rebuild itself catches.
   */
  method RefreshFinancialAggregation(db: Database, deleteFailure: Option<string>, aggFailure: Option<string>)
    returns (raised: Option<string>)
    modifies db
    ensures raised == deleteFailure
    ensures db.transactions == old(db.transactions)
    ensures deleteFailure.Some? ==> db.aggregates == old(db.aggregates)
    ensures deleteFailure.None? && aggFailure.Some? ==> db.aggregates == []
    ensures deleteFailure.None? && aggFailure.None? ==>
      db.aggregates == Rebuilt([], ScopedMonths(db.transactions, None, None), MonthRecordData(db.transactions, []))
  {
    if deleteFailure.Some? {
      return deleteFailure;
    }
    db.aggregates := [];
    var _ := AggregateMonthlyData(db, None, None, [], aggFailure);
    raised := None;
  }

  /**
   * The row loop: each row is checked in turn and either added to the session,
   * listed as an error with its raw cells, or listed as a duplicate, with the
   * three counters kept alongside.
   */
  method ValidateRows(db: Database, rows: seq<Row>, classify: Row -> RowOutcome)
    returns (importedCount: nat, skippedCount: nat, duplicateCount: nat,
             errorDetails: seq<ErrorDetail>, duplicateDetails: seq<DuplicateDetail>)
    modifies db
    ensures db.aggregates == old(db.aggregates)
    ensures db.transactions == old(db.transactions) + FrameTally(rows, classify).imported
    ensures errorDetails == FrameTally(rows, classify).errors && duplicateDetails == FrameTally(rows, classify).duplicates
    ensures importedCount == |FrameTally(rows, classify).imported|
    ensures skippedCount == |errorDetails| && duplicateCount == |duplicateDetails|
  {
    ghost var start := db.transactions;
    ghost var rs := Reports(rows, classify);
    importedCount, skippedCount, duplicateCount := 0, 0, 0;
    errorDetails, duplicateDetails := [], [];
    for index := 0 to |rows|
      invariant db.aggregates == old(db.aggregates)
      invariant |start| <= |db.transactions| && db.transactions[..|start|] == start
      invariant Tally(db.transactions[|start|..], errorDetails, duplicateDetails) == TallyOf(rs, index)
      invariant importedCount == |db.transactions| - |start|
      invariant skippedCount == |errorDetails| && duplicateCount == |duplicateDetails|
    {
      var row := rows[index];
      ReportAt(rows, index, classify);
      match classify(row)
      case Imported(t) =>
        db.transactions := db.transactions + [t];
        importedCount := importedCount + 1;
      case Skipped(reason) =>
        skippedCount := skippedCount + 1;
        errorDetails := errorDetails + [ErrorDetail(index + 2, RowText(row), reason)];
      case Duplicate(time, amount, cp, item) =>
        duplicateCount := duplicateCount + 1;
        duplicateDetails := duplicateDetails + [DuplicateDetail(index + 2, DateTimeString(time), amount, cp, item, DuplicateReason)];
    }
    assert db.transactions == start + db.transactions[|start|..];
  }

  /**
   * Validates the frame, classifies every row against the committed store,
   * adds the accepted ones, commits and refreshes the aggregates. Any
   * exception at batch level (`commitFailure` at the commit, a re-raised
   * refresh failure) is caught: the session rolls back and the answer reports
   * failure with zero counts.
   */
  method ImportDataFrame(db: Database, frame: Frame, dedup: bool,
                         parseTime: Cell -> Result<DateTime, string>, parseAmount: Cell -> Option<real>,
                         commitFailure: Option<string>, deleteFailure: Option<string>, aggFailure: Option<string>)
    returns (r: ImportResult)
    requires WellFormed(frame)
    modifies db
    ensures ValidateFormat(frame).Err? ==>
      r == Failed(ValidateFormat(frame).error) && db.transactions == old(db.transactions) && db.aggregates == old(db.aggregates)
    ensures ValidateFormat(frame).Ok? && commitFailure.Some? ==>
      r == Failed("数据导入失败: " + commitFailure.value)
      && db.transactions == old(db.transactions) && db.aggregates == old(db.aggregates)
    ensures ValidateFormat(frame).Ok? && commitFailure.None? ==>
      var tally := ImportTally(frame.rows, ImportContext(old(db.transactions), dedup, parseTime, parseAmount));
      && db.transactions == old(db.transactions) + tally.imported
      && (deleteFailure.Some? ==>
            r == Failed("数据导入失败: " + deleteFailure.value) && db.aggregates == old(db.aggregates))
      && (deleteFailure.None? ==>
            && r == ImportResult(true, "数据导入成功", |tally.imported|, |tally.errors|, |tally.duplicates|,
                                 tally.errors, tally.duplicates)
            && (aggFailure.Some? ==> db.aggregates == [])
            && (aggFailure.None? ==>
                  db.aggregates == Rebuilt([], ScopedMonths(db.transactions, None, None), MonthRecordData(db.transactions, []))))
  {
    var validation := ValidateFormat(frame);
    if validation.Err? {
      return Failed(validation.error);
    }
    var start := db.transactions;
    var ctx := ImportContext(start, dedup, parseTime, parseAmount);
    var importedCount, skippedCount, duplicateCount, errorDetails, duplicateDetails := ValidateRows(db, frame.rows, Classifier(ctx));
    ghost var tally := ImportTally(frame.rows, ctx);
    assert db.transactions == start + tally.imported;
    assert importedCount == |tally.imported| && errorDetails == tally.errors && duplicateDetails == tally.duplicates;
    if commitFailure.Some? {
      db.transactions := start;
      return Failed("数据导入失败: " + commitFailure.value);
    }
    var raised := RefreshFinancialAggregation(db, deleteFailure, aggFailure);
    if raised.Some? {
      return Failed("数据导入失败: " + raised.value);
    }
    r := ImportResult(true, "数据导入成功", importedCount, skippedCount, duplicateCount, errorDetails, duplicateDetails);
  }

  /**
   * import_from_csv: `read` is what reading the CSV text gave, a frame or the
   * reader's error text.
   */
  method ImportFromCsv(db: Database, read: Result<Frame, string>, dedup: bool,
                       parseTime: Cell -> Result<DateTime, string>, parseAmount: Cell -> Option<real>,
                       commitFailure: Option<string>, deleteFailure: Option<string>, aggFailure: Option<string>)
    returns (r: ImportResult)
    requires read.Ok? ==> WellFormed(read.value)
    modifies db
    ensures read.Err? ==>
      r == Failed("读取CSV失败: " + read.error) && db.transactions == old(db.transactions) && db.aggregates == old(db.aggregates)
    ensures read.Ok? && ValidateFormat(read.value).Err? ==>
      r == Failed(ValidateFormat(read.value).error) && db.transactions == old(db.transactions) && db.aggregates == old(db.aggregates)
    ensures read.Ok? && ValidateFormat(read.value).Ok? && commitFailure.Some? ==>
      r == Failed("数据导入失败: " + commitFailure.value)
      && db.transactions == old(db.transactions) && db.aggregates == old(db.aggregates)
    ensures read.Ok? && ValidateFormat(read.value).Ok? && commitFailure.None? ==>
      var tally := ImportTally(read.value.rows, ImportContext(old(db.transactions), dedup, parseTime, parseAmount));
      && db.transactions == old(db.transactions) + tally.imported
      && (deleteFailure.Some? ==>
            r == Failed("数据导入失败: " + deleteFailure.value) && db.aggregates == old(db.aggregates))
      && (deleteFailure.None? ==>
            && r == ImportResult(true, "数据导入成功", |tally.imported|, |tally.errors|, |tally.duplicates|,
                                 tally.errors, tally.duplicates)
            && (aggFailure.Some? ==> db.aggregates == [])
            && (aggFailure.None? ==>
                  db.aggregates == Rebuilt([], ScopedMonths(db.transactions, None, None), MonthRecordData(db.transactions, []))))
  {
    if read.Err? {
      return Failed("读取CSV失败: " + read.error);
    }
    r := ImportDataFrame(db, read.value, dedup, parseTime, parseAmount, commitFailure, deleteFailure, aggFailure);
  }

  // -------------------------------------------------------------- after a refresh

  /** A row of an upserted table is the upserted row or the row that stood at its place. */
  lemma UpsertRow(aggs: seq<MonthlyAggregate>, key: string, data: Columns, j: int)
    requires 0 <= j < |Upsert(aggs, key, data)|
    ensures Upsert(aggs, key, data)[j] == MonthlyAggregate(key, data)
      || (j < |aggs| && Upsert(aggs, key, data)[j] == aggs[j])
  {
  }

  /** Every row of a table rebuilt from nothing holds some month's data under that month's key. */
  lemma {:induction false} RebuiltFromEmptyRows(months: seq<YearMonth>, dataOf: YearMonth -> Columns)
    ensures forall j :: 0 <= j < |Rebuilt([], months, dataOf)| ==>
      exists k :: 0 <= k < |months| && Rebuilt([], months, dataOf)[j] == MonthlyAggregate(MonthKey(months[k]), dataOf(months[k]))
    decreases |months|
  {
    if months != [] {
      var init := months[..|months| - 1];
      var last := months[|months| - 1];
      RebuiltFromEmptyRows(init, dataOf);
      var before := Rebuilt([], init, dataOf);
      var after := Rebuilt([], months, dataOf);
      assert after == Upsert(before, MonthKey(last), dataOf(last));
      forall j | 0 <= j < |after|
        ensures exists k :: 0 <= k < |months| && after[j] == MonthlyAggregate(MonthKey(months[k]), dataOf(months[k]))
      {
        UpsertRow(before, MonthKey(last), dataOf(last), j);
        if after[j] == MonthlyAggregate(MonthKey(last), dataOf(last)) {
          assert months[|months| - 1] == last;
        } else {
          var k :| 0 <= k < |init| && before[j] == MonthlyAggregate(MonthKey(init[k]), dataOf(init[k]));
          assert init[k] == months[k];
        }
      }
    } else {
      assert Rebuilt([], months, dataOf) == [];
    }
  }

  /**
   * After the refresh the derived columns lose their history: with no visible
   * rows the housing average is 0, so every month's avg_consumption is its own
   * six-category consumption and its recent average equals it.
   */
  lemma RefreshedMonthAverages(txns: seq<Transaction>, ym: YearMonth)
    ensures var data := MonthRecordData(txns, [])(ym);
      && data.avgConsumption == CurrentMonthConsumption(CategoryTotals(MonthTransactions(txns, ym)))
      && data.recentAvgConsumption == data.avgConsumption
  {
    var mt := MonthTransactions(txns, ym);
    MonthDataAverages(mt, [], ym.year, ym.month);
    RecentAvgWithoutHistory(ym.year, ym.month, CurrentMonthConsumption(CategoryTotals(mt)) + HousingAverage([]));
  }

  /** Every row the refresh writes has recent_avg_consumption equal to avg_consumption. */
  lemma RefreshedRowsHaveNoHistory(txns: seq<Transaction>)
    ensures var rebuilt := Rebuilt([], ScopedMonths(txns, None, None), MonthRecordData(txns, []));
      forall j :: 0 <= j < |rebuilt| ==> rebuilt[j].values.recentAvgConsumption == rebuilt[j].values.avgConsumption
  {
    var months := ScopedMonths(txns, None, None);
    var rebuilt := Rebuilt([], months, MonthRecordData(txns, []));
    RebuiltFromEmptyRows(months, MonthRecordData(txns, []));
    forall j | 0 <= j < |rebuilt|
      ensures rebuilt[j].values.recentAvgConsumption == rebuilt[j].values.avgConsumption
    {
      var k :| 0 <= k < |months| && rebuilt[j] == MonthlyAggregate(MonthKey(months[k]), MonthRecordData(txns, [])(months[k]));
      RefreshedMonthAverages(txns, months[k]);
    }
  }

  // -------------------------------------------------------------- export

  /** A calendar date of the export window. */
  datatype Date = Date(year: int, month: int, day: int)

  function StartOfDay(d: Date): DateTime {
    DateTime(d.year, d.month, d.day, 0, 0, 0)
  }

  function EndOfDay(d: Date): DateTime {
    DateTime(d.year, d.month, d.day, 23, 59, 59)
  }

  /** The window filter as written: from the start of the first day, strictly before 23:59:59 of the last. */
  predicate InWindowAsWritten(t: Transaction, start: Option<Date>, end: Option<Date>) {
    && (start.None? || DateTimeLe(StartOfDay(start.value), t.time))
    && (end.None? || !DateTimeLe(EndOfDay(end.value), t.time))
  }

  /** The as-written filter leaves out a transaction at 23:59:59 on the last day. */
  lemma LastSecondExcluded(t: Transaction, d: Date)
    requires t.time == EndOfDay(d)
    ensures !InWindowAsWritten(t, None, Some(d))
  {
    LexLeReflexive(DateTimeKey(t.time));
  }

  /** The window filter with the last day included whole. */
  predicate InWindow(t: Transaction, start: Option<Date>, end: Option<Date>) {
    && (start.None? || DateTimeLe(StartOfDay(start.value), t.time))
    && (end.None? || DateTimeLe(t.time, EndOfDay(end.value)))
  }

  /** The corrected filter keeps every second of the last day. */
  lemma LastDayIncluded(t: Transaction, d: Date)
    requires t.time.year == d.year && t.time.month == d.month && t.time.day == d.day
    requires t.time.hour <= 23 && t.time.minute <= 59 && t.time.second <= 59
    ensures InWindow(t, None, Some(d))
  {
    var a, b := DateTimeKey(t.time), DateTimeKey(EndOfDay(d));
    var k := if t.time.hour < 23 then 3 else if t.time.minute < 59 then 4 else if t.time.second < 59 then 5 else 6;
    assert a[..k] == b[..k];
    assert k < 6 ==> a[k..][0] == a[k] < b[k] == b[k..][0];
    LexLeSamePrefix(a, b, k);
  }

  /** Equal keys, equal times. */
  lemma DateTimeKeyInjective(x: DateTime, y: DateTime)
    requires DateTimeKey(x) == DateTimeKey(y)
    ensures x == y
  {
    assert DateTimeKey(x)[2] == x.day && DateTimeKey(x)[3] == x.hour;
    assert DateTimeKey(x)[4] == x.minute && DateTimeKey(x)[5] == x.second;
  }

  /** The two filters differ only at the last second of the last day. */
  lemma WindowsAgreeElsewhere(t: Transaction, start: Option<Date>, end: Option<Date>)
    requires end.Some? ==> t.time != EndOfDay(end.value)
    ensures InWindowAsWritten(t, start, end) <==> InWindow(t, start, end)
  {
    if end.Some? {
      var a := DateTimeKey(t.time);
      var b := DateTimeKey(EndOfDay(end.value));
      LexLeTotal(a, b);
      if LexLe(a, b) && LexLe(b, a) {
        LexLeAntisymmetric(a, b);
        DateTimeKeyInjective(t.time, EndOfDay(end.value));
      }
      assert DateTimeLe(t.time, EndOfDay(end.value)) <==> !DateTimeLe(EndOfDay(end.value), t.time);
    }
  }

  /** Newest first. */
  predicate NewerOrSame(a: Transaction, b: Transaction) {
    DateTimeLe(b.time, a.time)
  }

  lemma NewerOrSameTotalPreorder()
    ensures TotalPreorder(NewerOrSame)
  {
    DateTimeLeTotalPreorder();
  }

  /** The store's transactions that pass a filter, newest first. */
  function SelectNewestFirst(store: seq<Transaction>, keep: Transaction -> bool): seq<Transaction> {
    SortBy(Filter(store, keep), NewerOrSame)
  }

  /** The selection holds exactly the store's transactions that pass the filter, each as often as stored, ordered by time descending. */
  lemma SelectNewestFirstProperties(store: seq<Transaction>, keep: Transaction -> bool)
    ensures var r := SelectNewestFirst(store, keep);
      && multiset(r) == multiset(Filter(store, keep))
      && (forall i :: 0 <= i < |r| ==> r[i] in store && keep(r[i]))
      && (forall i, j :: 0 <= i < j < |r| ==> DateTimeLe(r[j].time, r[i].time))
  {
    var filtered := Filter(store, keep);
    var r := SelectNewestFirst(store, keep);
    NewerOrSameTotalPreorder();
    SortBySorted(filtered, NewerOrSame);
    forall i | 0 <= i < |r| ensures r[i] in store && keep(r[i]) {
      assert r[i] in multiset(filtered);
    }
    forall i, j | 0 <= i < j < |r| ensures DateTimeLe(r[j].time, r[i].time) {
      assert NewerOrSame(r[i], r[j]);
    }
  }

  /** The exported transactions as the query is written: those in the as-written window, newest first. */
  function ExportOrder(store: seq<Transaction>, start: Option<Date>, end: Option<Date>): seq<Transaction> {
    SelectNewestFirst(store, (t: Transaction) => InWindowAsWritten(t, start, end))
  }

  /** The export holds exactly the store's transactions in the as-written window, each as often as stored, ordered by time descending. */
  lemma ExportOrderProperties(store: seq<Transaction>, start: Option<Date>, end: Option<Date>)
    ensures var r := ExportOrder(store, start, end);
      && multiset(r) == multiset(Filter(store, (t: Transaction) => InWindowAsWritten(t, start, end)))
      && (forall i :: 0 <= i < |r| ==> r[i] in store && InWindowAsWritten(r[i], start, end))
      && (forall i, j :: 0 <= i < j < |r| ==> DateTimeLe(r[j].time, r[i].time))
  {
    SelectNewestFirstProperties(store, (t: Transaction) => InWindowAsWritten(t, start, end));
  }

  /** The exported transactions with the last day included whole. */
  function ExportOrderCorrected(store: seq<Transaction>, start: Option<Date>, end: Option<Date>): seq<Transaction> {
    SelectNewestFirst(store, (t: Transaction) => InWindow(t, start, end))
  }

  /** The corrected export holds exactly the store's transactions in the whole-day window, each as often as stored, ordered by time descending. */
  lemma ExportOrderCorrectedProperties(store: seq<Transaction>, start: Option<Date>, end: Option<Date>)
    ensures var r := ExportOrderCorrected(store, start, end);
      && multiset(r) == multiset(Filter(store, (t: Transaction) => InWindow(t, start, end)))
      && (forall i :: 0 <= i < |r| ==> r[i] in store && InWindow(r[i], start, end))
      && (forall i, j :: 0 <= i < j < |r| ==> DateTimeLe(r[j].time, r[i].time))
  {
    SelectNewestFirstProperties(store, (t: Transaction) => InWindow(t, start, end));
  }

  /** A transaction stored at 23:59:59 of the end date is missing from the export as written and present in the corrected one. */
  lemma ExportMissesLastSecond(t: Transaction, d: Date)
    requires t.time == EndOfDay(d)
    ensures ExportOrder([t], None, Some(d)) == []
    ensures ExportOrderCorrected([t], None, Some(d)) == [t]
  {
    LastSecondExcluded(t, d);
    LastDayIncluded(t, d);
    assert Filter([t], (u: Transaction) => InWindowAsWritten(u, None, Some(d))) == [];
    assert Filter([t], (u: Transaction) => InWindow(u, None, Some(d))) == [t];
    var r := ExportOrderCorrected([t], None, Some(d));
    assert |r| == 1 && r[0] in multiset(r);
  }

  /** One exported CSV line, in canonical column order. */
  datatype ExportRow = ExportRow(time: string, category: string, amount: real, direction: string,
                                 paymentMethod: string, counterparty: string, itemName: string, remarks: string)

  /** `value or ""`. */
  function OrEmpty(o: Option<string>): (r: string)
    ensures o.None? ==> r == ""
    ensures o.Some? ==> r == o.value
  {
    if o.Some? then o.value else ""
  }

  function ExportRowOf(t: Transaction): ExportRow {
    ExportRow(DateTimeString(t.time), t.category, t.amount, t.direction,
              OrEmpty(t.paymentMethod), OrEmpty(t.counterparty), OrEmpty(t.itemName), OrEmpty(t.remarks))
  }

  /** Exported optional text reads back as the stored value when imported again, since imported rows never store "". */
  lemma OrEmptyRoundTrip(o: Option<string>)
    requires o != Some("")
    ensures OptionalText(OrEmpty(o)) == o
  {
  }

  /** The exported rows of a sequence of transactions, in order. */
  function ExportRows(ts: seq<Transaction>): (r: seq<ExportRow>)
    ensures |r| == |ts|
  {
    if ts == [] then [] else ExportRows(ts[..|ts| - 1]) + [ExportRowOf(ts[|ts| - 1])]
  }

  /** Row i of the export is the shaping of transaction i. */
  lemma {:induction false} ExportRowsIndex(ts: seq<Transaction>, i: nat)
    requires i < |ts|
    ensures ExportRows(ts)[i] == ExportRowOf(ts[i])
  {
    if i < |ts| - 1 {
      ExportRowsIndex(ts[..|ts| - 1], i);
    }
  }

  /**
   * The rows of the exported file as the service writes them: one per transaction in the as-written
   * window, newest first; `failure` is the exception a date parse, the query or the CSV writer raises,
   * reported with the export prefix.
   */
  method ExportToCsv(store: seq<Transaction>, start: Option<Date>, end: Option<Date>, failure: Option<string>)
    returns (r: Result<seq<ExportRow>, string>)
    ensures failure.Some? ==> r == Err("导出CSV失败: " + failure.value)
    ensures failure.None? ==> r == Ok(ExportRows(ExportOrder(store, start, end)))
  {
    if failure.Some? {
      return Err("导出CSV失败: " + failure.value);
    }
    var rows := ShapeRows(ExportOrder(store, start, end));
    r := Ok(rows);
  }

  /** The export with the last day included whole, and the same error path. */
  method ExportToCsvCorrected(store: seq<Transaction>, start: Option<Date>, end: Option<Date>, failure: Option<string>)
    returns (r: Result<seq<ExportRow>, string>)
    ensures failure.Some? ==> r == Err("导出CSV失败: " + failure.value)
    ensures failure.None? ==> r == Ok(ExportRows(ExportOrderCorrected(store, start, end)))
  {
    if failure.Some? {
      return Err("导出CSV失败: " + failure.value);
    }
    var rows := ShapeRows(ExportOrderCorrected(store, start, end));
    r := Ok(rows);
  }

  /** The loop that turns each selected transaction into its CSV row. */
  method ShapeRows(transactions: seq<Transaction>) returns (rows: seq<ExportRow>)
    ensures rows == ExportRows(transactions)
  {
    rows := [];
    for i := 0 to |transactions|
      invariant rows == ExportRows(transactions[..i])
    {
      assert transactions[..i + 1][..i] == transactions[..i];
      rows := rows + [ExportRowOf(transactions[i])];
    }
    assert transactions[..|transactions|] == transactions;
  }
}
