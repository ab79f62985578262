// The transaction import review page and its shared state: the draft rows a parsed bill
// produced, the editing rules of the review table, the datetime converters of its time input,
// and the payload a submission sends.

module ImportReview {
  import opened Common

  /** The eight columns of the review table, in display order. */
  datatype Column =
    | TransactionTime | Category | Amount | IncomeExpenseType
    | PaymentMethod | Counterparty | ItemName | Remarks

  const Columns: seq<Column> :=
    [TransactionTime, Category, Amount, IncomeExpenseType, PaymentMethod, Counterparty, ItemName, Remarks]

  /** Every column is in the table. */
  lemma ColumnListed(c: Column)
    ensures c in Columns
  {
    match c
    case TransactionTime => assert Columns[0] == c;
    case Category => assert Columns[1] == c;
    case Amount => assert Columns[2] == c;
    case IncomeExpenseType => assert Columns[3] == c;
    case PaymentMethod => assert Columns[4] == c;
    case Counterparty => assert Columns[5] == c;
    case ItemName => assert Columns[6] == c;
    case Remarks => assert Columns[7] == c;
  }

  function Label(c: Column): string {
    match c
    case TransactionTime => "交易时间"
    case Category => "类型"
    case Amount => "金额"
    case IncomeExpenseType => "收支"
    case PaymentMethod => "支付方式"
    case Counterparty => "交易对方"
    case ItemName => "商品名称"
    case Remarks => "备注"
  }

  /** Columns that may always be edited. */
  predicate AlwaysEditable(c: Column) {
    c == Category || c == Remarks
  }

  /** Only the category and the remarks are always editable. */
  lemma AlwaysEditableColumns(c: Column)
    ensures AlwaysEditable(c) <==> Label(c) == "类型" || Label(c) == "备注"
  {
  }

  /** A draft row: the string value of each column that holds one (a column absent from
      `values` holds something other than a string), whether the row was added on this page,
      and the cells unlocked for editing. */
  datatype DraftRow = DraftRow(values: map<Column, string>, isNew: bool, editableCells: set<Column>)

  /** createEmptyDraftRow: every column empty, marked new, nothing unlocked. */
  function EmptyDraftRow(): (row: DraftRow)
    ensures row.isNew && row.editableCells == {}
    ensures forall c: Column :: c in row.values && row.values[c] == ""
  {
    assert forall c: Column :: c in Columns by {
      forall c: Column ensures c in Columns {
        ColumnListed(c);
      }
    }
    DraftRow(map c: Column | c in Columns :: "", true, {})
  }

  // ------------------------------------------------------ datetime converters

  /** STORAGE_TO_INPUT_DATETIME: "YYYY-MM-DD HH:MM:SS" for a datetime-local input. */
  function StorageToInput(value: string): (r: string)
    ensures value == "" ==> r == ""
    ensures 'T' in value ==> r == value
    ensures |r| == |value|
  {
    if value == "" then ""
    else if 'T' in value then value
    else ReplaceFirst(value, ' ', 'T')
  }

  /** INPUT_TO_STORAGE_DATETIME: the input's "T" back to a space. */
  function InputToStorage(value: string): (r: string)
    ensures |r| == |value|
    ensures 'T' !in value ==> r == value
  {
    if value == "" then "" else ReplaceFirst(value, 'T', ' ')
  }

  /** A stored time without "T" survives the trip through the input. */
  lemma StorageRoundTrip(s: string)
    requires 'T' !in s
    ensures InputToStorage(StorageToInput(s)) == s
  {
    if s != "" {
      ReplaceFirstBack(s);
    }
  }

  lemma {:induction false} ReplaceFirstBack(s: string)
    requires 'T' !in s
    ensures ReplaceFirst(ReplaceFirst(s, ' ', 'T'), 'T', ' ') == s
  {
    if s != [] && s[0] != ' ' {
      ReplaceFirstBack(s[1..]);
      var r := ReplaceFirst(s, ' ', 'T');
      assert r == [s[0]] + ReplaceFirst(s[1..], ' ', 'T');
      assert r[0] == s[0] && r[1..] == ReplaceFirst(s[1..], ' ', 'T');
      assert s == [s[0]] + s[1..];
    }
  }

  /** An input value with a single "T" and no blank before it survives the trip through
      storage. */
  lemma InputRoundTrip(date: string, time: string)
    requires 'T' !in date && ' ' !in date && 'T' !in time
    ensures StorageToInput(InputToStorage(date + "T" + time)) == date + "T" + time
  {
    var v := date + "T" + time;
    ReplaceAt(date, 'T', ' ', time);
    var stored := date + " " + time;
    assert 'T' !in stored by {
      assert forall k :: 0 <= k < |stored| ==> stored[k] == (if k < |date| then date[k] else if k == |date| then ' ' else time[k - |date| - 1]);
    }
    ReplaceAt(date, ' ', 'T', time);
  }

  /** Replacing the first `from` in a + [from] + b, when a has none, replaces exactly that one. */
  lemma {:induction false} ReplaceAt(a: string, from: char, to: char, b: string)
    requires from !in a
    ensures ReplaceFirst(a + [from] + b, from, to) == a + [to] + b
  {
    var s := a + [from] + b;
    if a == [] {
      assert s[0] == from && s[1..] == b;
    } else {
      var rest := a[1..] + [from] + b;
      assert s[0] == a[0] != from && s[1..] == rest;
      ReplaceAt(a[1..], from, to, b);
      assert a + [to] + b == [a[0]] + (a[1..] + [to] + b);
    }
  }

  // ------------------------------------------------------------- the table

  /** The value a cell shows: its string, or "" for anything else. */
  function CellValue(row: DraftRow, c: Column): (v: string)
    ensures c in row.values ==> v == row.values[c]
    ensures c !in row.values ==> v == ""
  {
    if c in row.values then row.values[c] else ""
  }

  /** The allowEdit rule of a cell. */
  predicate AllowEdit(row: DraftRow, c: Column) {
    AlwaysEditable(c) || row.isNew || c in row.editableCells || IsBlank(CellValue(row, c))
  }

  /** A row counts for submission when some column holds non-blank text. */
  predicate HasContent(row: DraftRow) {
    exists c :: c in Columns && c in row.values && !IsBlank(row.values[c])
  }

  /** nonEmptyRows. */
  function NonEmptyRows(rows: seq<DraftRow>): seq<DraftRow> {
    Filter(rows, HasContent)
  }

  /** Exactly the rows with content are kept, in order. */
  lemma NonEmptyRowsExact(rows: seq<DraftRow>, more: seq<DraftRow>)
    ensures forall row :: row in NonEmptyRows(rows) <==> row in rows && HasContent(row)
    ensures NonEmptyRows(rows + more) == NonEmptyRows(rows) + NonEmptyRows(more)
  {
    FilterAppend(rows, more, HasContent);
    forall row | row in rows && HasContent(row) ensures row in NonEmptyRows(rows) {
      var k :| 0 <= k < |rows| && rows[k] == row;
    }
  }

  /** A fresh draft row has no content. */
  lemma EmptyDraftRowHasNoContent()
    ensures !HasContent(EmptyDraftRow())
    ensures forall c :: AllowEdit(EmptyDraftRow(), c)
  {
  }

  /** The row with `key` set to `value`: an old row whose locked cell held blank text gets that
      cell unlocked for good, so it stays editable once it holds a value. */
  function ChangedRow(row: DraftRow, key: Column, value: string): DraftRow {
    var unlock := !row.isNew && !AlwaysEditable(key) && key in row.values && IsBlank(row.values[key]);
    DraftRow(row.values[key := value], row.isNew, if unlock then row.editableCells + {key} else row.editableCells)
  }

  /** Only the chosen cell changes; an unlock is added exactly for an old row's locked blank
      string cell; earlier unlocks stay. */
  lemma ChangedRowEffect(row: DraftRow, key: Column, value: string)
    ensures var r := ChangedRow(row, key, value);
      && r.values[key] == value
      && (forall c :: c != key ==> (c in r.values <==> c in row.values) && CellValue(r, c) == CellValue(row, c))
      && r.isNew == row.isNew
      && row.editableCells <= r.editableCells <= row.editableCells + {key}
      && (key in r.editableCells - row.editableCells <==>
           !row.isNew && !AlwaysEditable(key) && key in row.values && IsBlank(row.values[key]) && key !in row.editableCells)
  {
  }

  /** A string cell that could be edited stays editable after the edit, whatever is typed; the
      other cells keep their editability. */
  lemma EditableStaysEditable(row: DraftRow, key: Column, value: string)
    requires key in row.values && AllowEdit(row, key)
    ensures AllowEdit(ChangedRow(row, key, value), key)
    ensures forall c :: c != key ==> (AllowEdit(ChangedRow(row, key, value), c) <==> AllowEdit(row, c))
  {
  }

  /** An old row's filled, locked cell in a column that is not always editable is read-only. */
  lemma FilledCellsLocked(row: DraftRow, c: Column)
    requires !row.isNew && !AlwaysEditable(c) && c !in row.editableCells
    requires c in row.values && !IsBlank(row.values[c])
    ensures !AllowEdit(row, c)
  {
  }

  /** handleDeleteRow: every row but the one at `index`; an index outside the rows removes nothing. */
  function DeleteRowAt(rows: seq<DraftRow>, index: int): (r: seq<DraftRow>)
    ensures 0 <= index < |rows| ==> |r| == |rows| - 1
    ensures 0 <= index < |rows| ==> forall j :: 0 <= j < index ==> r[j] == rows[j]
    ensures 0 <= index < |rows| ==> forall j :: index <= j < |r| ==> r[j] == rows[j + 1]
    ensures !(0 <= index < |rows|) ==> r == rows
  {
    if 0 <= index < |rows| then rows[..index] + rows[index + 1..] else rows
  }

  // ------------------------------------------------------------ submission

  /** A submitted record: the eight column values. */
  datatype Payload = Payload(enableDeduplication: bool, records: seq<map<Column, string>>)

  const NothingToSubmitMessage: string := "没有可提交的数据记录"

  function RecordOf(row: DraftRow): map<Column, string> {
    row.values
  }

  /** handleSubmit's guard and payload; the request itself is outside the model. */
  function SubmitPayload(rows: seq<DraftRow>, enableDeduplication: bool): (r: Result<Payload, string>)
    ensures r.Err? <==> NonEmptyRows(rows) == []
    ensures r.Err? ==> r.error == NothingToSubmitMessage
  {
    var kept := NonEmptyRows(rows);
    if |kept| == 0 then Err(NothingToSubmitMessage)
    else Ok(Payload(enableDeduplication, Map(kept, RecordOf)))
  }

  /** The payload carries, in order, the cell values of each row with content, each with some
      non-blank column, and the deduplication switch as set. */
  lemma SubmitPayloadRecords(rows: seq<DraftRow>, enableDeduplication: bool)
    requires SubmitPayload(rows, enableDeduplication).Ok?
    ensures var p := SubmitPayload(rows, enableDeduplication).value;
      && p.enableDeduplication == enableDeduplication
      && |p.records| == |NonEmptyRows(rows)| > 0
      && (forall j :: 0 <= j < |p.records| ==> p.records[j] == NonEmptyRows(rows)[j].values)
      && forall j :: 0 <= j < |p.records| ==> exists c :: c in Columns && c in p.records[j] && !IsBlank(p.records[j][c])
  {
    var kept := NonEmptyRows(rows);
    forall j | 0 <= j < |kept| ensures HasContent(kept[j]) {
    }
  }

  // ------------------------------------------------------------ the context

  const OutsideProviderMessage: string := "useImportReview 必须在 ImportReviewProvider 内使用"

  /** useImportReview: the context, or the error raised outside its provider. */
  function UseImportReview(context: Option<ReviewState>): (r: Result<ReviewState, string>)
    ensures context.Some? ==> r == Ok(context.value)
    ensures context.None? ==> r == Err(OutsideProviderMessage)
  {
    if context.Some? then Ok(context.value) else Err(OutsideProviderMessage)
  }

  /** The provider's three state cells. */
  class ReviewState {
    var rows: seq<DraftRow>
    var enableDeduplication: bool
    var sourceFileName: Option<string>

    /** The provider's initial state. */
    constructor ()
      ensures rows == [] && enableDeduplication && sourceFileName == None
    {
      rows := [];
      enableDeduplication := true;
      sourceFileName := None;
    }

    /** reset: back to the initial state. */
    method Reset()
      modifies this
      ensures rows == [] && enableDeduplication && sourceFileName == None
    {
      rows := [];
      enableDeduplication := true;
      sourceFileName := None;
    }

    /** handleCellChange for a row of the table. */
    method CellChange(rowIndex: nat, key: Column, value: string)
      requires rowIndex < |rows|
      modifies this
      ensures rows == old(rows)[rowIndex := ChangedRow(old(rows)[rowIndex], key, value)]
      ensures |rows| == |old(rows)|
      ensures forall j :: 0 <= j < |rows| && j != rowIndex ==> rows[j] == old(rows)[j]
      ensures enableDeduplication == old(enableDeduplication) && sourceFileName == old(sourceFileName)
    {
      rows := rows[rowIndex := ChangedRow(rows[rowIndex], key, value)];
    }

    /** handleAddRow: a fresh draft row in front. */
    method AddRow()
      modifies this
      ensures rows == [EmptyDraftRow()] + old(rows) && |rows| == |old(rows)| + 1
      ensures enableDeduplication == old(enableDeduplication) && sourceFileName == old(sourceFileName)
    {
      rows := [EmptyDraftRow()] + rows;
    }

    /** handleDeleteRow. */
    method DeleteRow(index: int)
      modifies this
      ensures rows == DeleteRowAt(old(rows), index)
      ensures enableDeduplication == old(enableDeduplication) && sourceFileName == old(sourceFileName)
    {
      rows := DeleteRowAt(rows, index);
    }
  }

  /** Adding a row does not change what would be submitted. */
  lemma AddRowKeepsSubmission(rows: seq<DraftRow>, enableDeduplication: bool)
    ensures SubmitPayload([EmptyDraftRow()] + rows, enableDeduplication) == SubmitPayload(rows, enableDeduplication)
  {
    EmptyDraftRowHasNoContent();
    NonEmptyRowsExact([EmptyDraftRow()], rows);
    var added := [EmptyDraftRow()];
    assert added[1..] == [];
    assert NonEmptyRows(added) == [];
    assert NonEmptyRows(added + rows) == NonEmptyRows(rows);
  }
}
