// The statement parser: it recognises an Alipay or WeChat export (text or
// spreadsheet) or a plain CSV file, cuts the transaction block out of the
// statement, maps each format's columns onto the eight canonical columns, and
// keeps only rows with a time, an amount and an income/expense direction.

module BillParser {
  import opened Common

  newtype byte = x: int | 0 <= x < 256

  /** The canonical output columns, in order. */
  const CanonicalColumns: seq<string> := ["交易时间", "类型", "金额", "收支", "支付方式", "交易对方", "商品名称", "备注"]

  // ----------------------------------------------------------- library calls

  /** Why pd.read_excel failed: the openpyxl engine is missing, or the file is unreadable (with the error text). */
  datatype ExcelError = MissingEngine | Unreadable(text: string)

  /** A frame as pandas holds it: column labels and rows of cells, by position. */
  datatype Table = Table(columns: seq<string>, rows: seq<seq<Cell>>)

  /** What pd.read_csv under one encoding gives: a frame, a UnicodeDecodeError or ParserError, or any other exception's text. */
  datatype CsvRead = Read(table: Table) | Rejected | Raised(message: string)

  /**
   * The library calls the parser makes, as functions: byte decoding with
   * errors ignored, str.splitlines, csv.DictReader into a frame, pd.read_csv
   * under one encoding (a frame, a decode or parser error, or another exception),
   * pd.read_excel of the first sheet without a header, whether
   * pd.to_datetime accepts a text, pd.to_numeric with coercion, and the MD5
   * hex digest.
   */
  datatype Library = Library(
    decodeUtf8: seq<byte> -> string,
    decodeUtf8Sig: seq<byte> -> string,
    decodeGbk: seq<byte> -> string,
    splitLines: string -> seq<string>,
    dictReader: seq<string> -> Table,
    readCsv: (seq<byte>, string) -> CsvRead,
    readExcel: seq<byte> -> Result<seq<seq<Cell>>, ExcelError>,
    isTime: string -> bool,
    toNumeric: string -> Option<real>,
    md5: seq<byte> -> string)

  // --------------------------------------------------------- format detection

  datatype Format = Alipay | WechatXlsx | Wechat | Standard

  function FormatName(f: Format): string {
    match f
    case Alipay => "alipay"
    case WechatXlsx => "wechat_xlsx"
    case Wechat => "wechat"
    case Standard => "standard"
  }

  lemma FormatNameInjective(a: Format, b: Format)
    requires FormatName(a) == FormatName(b)
    ensures a == b
  {
    assert FormatName(Alipay)[0] == 'a' && FormatName(Standard)[0] == 's';
    assert FormatName(WechatXlsx)[|FormatName(WechatXlsx)| - 1] == 'x' && FormatName(Wechat)[|FormatName(Wechat)| - 1] == 't';
  }

  const AlipayKeywords: seq<string> := ["支付宝", "alipay"]
  const WechatKeywords: seq<string> := ["微信支付", "weixin", "wechat"]

  predicate HasKeyword(s: string, keywords: seq<string>) {
    exists k :: k in keywords && Contains(s, k)
  }

  /** The local file header signature "PK\x03\x04" that opens every ZIP archive, and so every .xlsx file. */
  const ZipSignature: seq<byte> := [0x50, 0x4B, 0x03, 0x04]

  predicate HasZipSignature(bytes: seq<byte>) {
    |bytes| >= 4 && bytes[..4] == ZipSignature
  }

  /** The lower-cased file name, "" when there is none. */
  function FileName(filename: Option<string>): string {
    Lower(if filename.Some? then filename.value else "")
  }

  predicate IsSpreadsheetName(name: string) {
    EndsWith(name, ".xlsx") || EndsWith(name, ".xls")
  }

  /** The text searched for keywords: the UTF-8 reading, or the GBK one when that is empty. */
  function Preview(bytes: seq<byte>, lib: Library): string {
    var utf8 := lib.decodeUtf8(bytes);
    if utf8 != "" then utf8 else lib.decodeGbk(bytes)
  }

  /** The format, decided by the file name's extension, the ZIP signature, then keywords in the name and in the text. */
  function DetectFormat(bytes: seq<byte>, filename: Option<string>, lib: Library): Format {
    var name := FileName(filename);
    if IsSpreadsheetName(name) then
      if HasKeyword(name, AlipayKeywords) then Alipay else WechatXlsx
    else if HasZipSignature(bytes) then WechatXlsx
    else if HasKeyword(name, AlipayKeywords) then Alipay
    else if HasKeyword(name, WechatKeywords) then Wechat
    else
      var preview := Preview(bytes, lib);
      if HasKeyword(preview, AlipayKeywords) then Alipay
      else if HasKeyword(preview, WechatKeywords) then Wechat
      else Standard
  }

  /** A spreadsheet file name decides alone: the bytes and their decodings play no part. */
  lemma SpreadsheetNameDecides(b1: seq<byte>, b2: seq<byte>, filename: Option<string>, lib1: Library, lib2: Library)
    requires IsSpreadsheetName(FileName(filename))
    ensures DetectFormat(b1, filename, lib1) == DetectFormat(b2, filename, lib2)
    ensures DetectFormat(b1, filename, lib1) == Alipay <==> HasKeyword(FileName(filename), AlipayKeywords)
    ensures DetectFormat(b1, filename, lib1) in {Alipay, WechatXlsx}
  {
  }

  /** Outside a spreadsheet name, the ZIP signature wins over every keyword. */
  lemma ZipSignatureWins(bytes: seq<byte>, filename: Option<string>, lib: Library)
    requires !IsSpreadsheetName(FileName(filename)) && HasZipSignature(bytes)
    ensures DetectFormat(bytes, filename, lib) == WechatXlsx
  {
  }

  /** A keyword in the name decides before the text is looked at, and an Alipay keyword beats a WeChat one. */
  lemma NameKeywordDecides(b1: seq<byte>, b2: seq<byte>, filename: Option<string>, lib1: Library, lib2: Library)
    requires !IsSpreadsheetName(FileName(filename)) && !HasZipSignature(b1) && !HasZipSignature(b2)
    requires HasKeyword(FileName(filename), AlipayKeywords) || HasKeyword(FileName(filename), WechatKeywords)
    ensures DetectFormat(b1, filename, lib1) == DetectFormat(b2, filename, lib2)
    ensures DetectFormat(b1, filename, lib1) == (if HasKeyword(FileName(filename), AlipayKeywords) then Alipay else Wechat)
  {
  }

  /** Detection falls back to the standard CSV format exactly when no rule applies. */
  lemma StandardIsFallback(bytes: seq<byte>, filename: Option<string>, lib: Library)
    ensures DetectFormat(bytes, filename, lib) == Standard <==>
      && !IsSpreadsheetName(FileName(filename)) && !HasZipSignature(bytes)
      && !HasKeyword(FileName(filename), AlipayKeywords) && !HasKeyword(FileName(filename), WechatKeywords)
      && !HasKeyword(Preview(bytes, lib), AlipayKeywords) && !HasKeyword(Preview(bytes, lib), WechatKeywords)
  {
  }

  // ------------------------------------------------------- statement blocks

  /** The dashed line that opens the transaction block of an Alipay or WeChat statement (22 dashes). */
  const ShortMarker: string := "----------------------"
  /** The dashed line that closes the Alipay transaction block (28 dashes). */
  const LongMarker: string := "----------------------------"

  predicate OpensBlock(line: string) {
    StartsWith(line, ShortMarker)
  }

  predicate ClosesBlock(line: string) {
    StartsWith(line, LongMarker)
  }

  predicate OpensWechatBlock(line: string) {
    StartsWith(Trim(line), ShortMarker)
  }

  /** A run of whitespace followed by a comma starts t. */
  predicate CommaAfterSpaces(t: string) {
    t != [] && (t[0] == ',' || (IsSpace(t[0]) && CommaAfterSpaces(t[1..])))
  }

  /** re.sub(r"\s+,", ",", s): every whitespace run directly before a comma is removed. */
  function DropSpacesBeforeCommas(s: string): string {
    if s == [] then []
    else if IsSpace(s[0]) && CommaAfterSpaces(s[1..]) then DropSpacesBeforeCommas(s[1..])
    else [s[0]] + DropSpacesBeforeCommas(s[1..])
  }

  predicate NoSpaceBeforeComma(s: string) {
    forall i :: 0 <= i < |s| - 1 ==> !(IsSpace(s[i]) && s[i + 1] == ',')
  }

  lemma {:induction false} DroppedHasNoSpaceBeforeComma(s: string)
    ensures NoSpaceBeforeComma(DropSpacesBeforeCommas(s))
  {
    if s != [] {
      DroppedHasNoSpaceBeforeComma(s[1..]);
    }
  }

  /** A whitespace character in front of a comma-terminated run leaves a space-comma pair. */
  lemma {:induction false} SpaceRunHasPair(c: char, t: string)
    requires IsSpace(c) && CommaAfterSpaces(t)
    ensures !NoSpaceBeforeComma([c] + t)
    decreases |t|
  {
    var s := [c] + t;
    if t[0] == ',' {
      assert IsSpace(s[0]) && s[1] == ',';
    } else {
      SpaceRunHasPair(t[0], t[1..]);
      assert [t[0]] + t[1..] == t;
      var i :| 0 <= i < |t| - 1 && IsSpace(t[i]) && t[i + 1] == ',';
      assert IsSpace(s[i + 1]) && s[i + 2] == ',';
    }
  }

  /** The sanitizer changes a line exactly when the line has whitespace before a comma. */
  lemma {:induction false} DropIsIdentityIff(s: string)
    ensures DropSpacesBeforeCommas(s) == s <==> NoSpaceBeforeComma(s)
  {
    DroppedHasNoSpaceBeforeComma(s);
    if NoSpaceBeforeComma(s) && s != [] {
      assert NoSpaceBeforeComma(s[1..]) by {
        forall i | 0 <= i < |s[1..]| - 1 ensures !(IsSpace(s[1..][i]) && s[1..][i + 1] == ',') {
          assert s[1..][i] == s[i + 1] && s[1..][i + 1] == s[i + 2];
        }
      }
      if IsSpace(s[0]) && CommaAfterSpaces(s[1..]) {
        SpaceRunHasPair(s[0], s[1..]);
        assert false;
      }
      DropIsIdentityIff(s[1..]);
      assert [s[0]] + s[1..] == s;
    }
  }

  lemma SliceKeepsNoSpaceBeforeComma(s: string, a: nat, b: nat)
    requires a <= b <= |s| && NoSpaceBeforeComma(s)
    ensures NoSpaceBeforeComma(s[a..b])
  {
    forall i | 0 <= i < |s[a..b]| - 1 ensures !(IsSpace(s[a..b][i]) && s[a..b][i + 1] == ',') {
      assert s[a..b][i] == s[a + i] && s[a..b][i + 1] == s[a + i + 1];
    }
  }

  lemma TrimKeepsNoSpaceBeforeComma(s: string)
    requires NoSpaceBeforeComma(s)
    ensures NoSpaceBeforeComma(Trim(s))
  {
    var t := TrimStart(s);
    SliceKeepsNoSpaceBeforeComma(s, |s| - |t|, |s|);
    SliceKeepsNoSpaceBeforeComma(t, 0, |TrimEnd(t)|);
  }

  /** One Alipay statement line as it enters the CSV block: sanitized, then stripped. */
  function AlipayClean(line: string): string {
    Trim(DropSpacesBeforeCommas(line))
  }

  /** The non-empty results of clean over the lines, in order. */
  function KeptLines(lines: seq<string>, clean: string -> string): (r: seq<string>)
    ensures |r| <= |lines|
  {
    if lines == [] then []
    else
      var last := clean(lines[|lines| - 1]);
      KeptLines(lines[..|lines| - 1], clean) + (if last != "" then [last] else [])
  }

  /** A kept line is non-empty. */
  lemma {:induction false} KeptLineNotEmpty(lines: seq<string>, clean: string -> string, x: string)
    requires x in KeptLines(lines, clean)
    ensures x != ""
  {
    if x in KeptLines(lines[..|lines| - 1], clean) {
      KeptLineNotEmpty(lines[..|lines| - 1], clean, x);
    }
  }

  /** A kept line is the cleaned form of some input line, returned as j. */
  lemma {:induction false} KeptLineSource(lines: seq<string>, clean: string -> string, x: string) returns (j: nat)
    requires x in KeptLines(lines, clean)
    ensures j < |lines| && clean(lines[j]) == x
  {
    var n := |lines|;
    if x in KeptLines(lines[..n - 1], clean) {
      j := KeptLineSource(lines[..n - 1], clean, x);
      assert lines[..n - 1][j] == lines[j];
    } else {
      j := n - 1;
    }
  }

  lemma KeptLinesSnoc(lines: seq<string>, line: string, clean: string -> string)
    ensures KeptLines(lines + [line], clean) ==
      KeptLines(lines, clean) + (if clean(line) != "" then [clean(line)] else [])
  {
    assert (lines + [line])[..|lines|] == lines;
  }

  lemma KeptLinesStep(lines: seq<string>, from: nat, i: nat, clean: string -> string)
    requires from <= i < |lines|
    ensures KeptLines(lines[from..i + 1], clean) ==
      KeptLines(lines[from..i], clean) + (if clean(lines[i]) != "" then [clean(lines[i])] else [])
  {
    assert lines[from..i + 1] == lines[from..i] + [lines[i]];
    KeptLinesSnoc(lines[from..i], lines[i], clean);
  }

  /**
   * The block a statement scan collects: the lines strictly after the first
   * line satisfying opens and before the first later line satisfying closes,
   * each passed through clean, with the empty results dropped.
   */
  function Block(lines: seq<string>, opens: string -> bool, closes: string -> bool, clean: string -> string): seq<string> {
    match FirstWhere(lines, opens)
    case None => []
    case Some(s) =>
      var body := lines[s + 1..];
      var end := match FirstWhere(body, closes) case None => |body| case Some(e) => e;
      KeptLines(body[..end], clean)
  }

  lemma BlockOpened(lines: seq<string>, opens: string -> bool, closes: string -> bool, clean: string -> string, start: nat, end: nat)
    requires start < end <= |lines| && opens(lines[start]) && forall j :: 0 <= j < start ==> !opens(lines[j])
    requires forall j :: start < j < end ==> !closes(lines[j])
    requires end == |lines| || closes(lines[end])
    ensures Block(lines, opens, closes, clean) == KeptLines(lines[start + 1..end], clean)
  {
    FirstWhereAt(lines, opens, start);
    var body := lines[start + 1..];
    if end < |lines| {
      FirstWhereAt(body, closes, end - start - 1);
    } else {
      assert FirstWhere(body, closes) == None;
    }
    assert body[..end - start - 1] == lines[start + 1..end];
  }

  /** A forward scan for the first element satisfying p. */
  method FindFirst<T>(xs: seq<T>, p: T -> bool) returns (k: Option<nat>)
    ensures k == FirstWhere(xs, p)
  {
    var i := 0;
    while i < |xs|
      invariant i <= |xs|
      invariant forall j :: 0 <= j < i ==> !p(xs[j])
    {
      if p(xs[i]) {
        FirstWhereAt(xs, p, i);
        return Some(i);
      }
      i := i + 1;
    }
    return None;
  }

  /** Cleans and keeps the lines from index from on, up to the first one satisfying closes. */
  method ScanUntil(lines: seq<string>, from: nat, closes: string -> bool, clean: string -> string)
    returns (kept: seq<string>, end: nat)
    requires from <= |lines|
    ensures from <= end <= |lines| && (end == |lines| || closes(lines[end]))
    ensures forall j :: from <= j < end ==> !closes(lines[j])
    ensures kept == KeptLines(lines[from..end], clean)
  {
    kept := [];
    end := from;
    while end < |lines| && !closes(lines[end])
      invariant from <= end <= |lines|
      invariant forall j :: from <= j < end ==> !closes(lines[j])
      invariant kept == KeptLines(lines[from..end], clean)
    {
      var sanitized := clean(lines[end]);
      KeptLinesStep(lines, from, end, clean);
      if sanitized != "" {
        kept := kept + [sanitized];
      }
      end := end + 1;
    }
  }

  /**
   * The scan shared by _parse_alipay and _parse_wechat, in the two phases of
   * the source's `within_table` flag: skip up to the opening line, then clean
   * and keep each line until a closing line stops the scan.
   */
  method ScanBlock(lines: seq<string>, opens: string -> bool, closes: string -> bool, clean: string -> string)
    returns (csvLines: seq<string>)
    ensures csvLines == Block(lines, opens, closes, clean)
  {
    csvLines := [];
    var opening := FindFirst(lines, opens);
    if opening.None? {
      return;
    }
    var start := opening.value;
    var i;
    csvLines, i := ScanUntil(lines, start + 1, closes, clean);
    BlockOpened(lines, opens, closes, clean, start, i);
  }

  /** The Alipay CSV block, between the short and the long marker. */
  function AlipayBlock(lines: seq<string>): seq<string> {
    Block(lines, OpensBlock, ClosesBlock, AlipayClean)
  }

  lemma {:induction false} BlockLineNotEmpty(lines: seq<string>, opens: string -> bool, closes: string -> bool, clean: string -> string, x: string)
    requires x in Block(lines, opens, closes, clean)
    ensures x != ""
  {
    var s := FirstWhere(lines, opens).value;
    var body := lines[s + 1..];
    var end := match FirstWhere(body, closes) case None => |body| case Some(e) => e;
    KeptLineNotEmpty(body[..end], clean, x);
  }

  /** A line of a block is the cleaned form of some statement line, returned as line. */
  lemma {:induction false} BlockLineSource(lines: seq<string>, opens: string -> bool, closes: string -> bool, clean: string -> string, x: string)
    returns (line: string)
    requires x in Block(lines, opens, closes, clean)
    ensures line in lines && clean(line) == x
  {
    var s := FirstWhere(lines, opens).value;
    var body := lines[s + 1..];
    var end := match FirstWhere(body, closes) case None => |body| case Some(e) => e;
    var j := KeptLineSource(body[..end], clean, x);
    line := body[..end][j];
    assert line == lines[s + 1 + j];
  }

  /** Every line of the Alipay block is non-empty. */
  lemma AlipayBlockLineNotEmpty(lines: seq<string>, x: string)
    requires x in AlipayBlock(lines)
    ensures x != ""
  {
    BlockLineNotEmpty(lines, OpensBlock, ClosesBlock, AlipayClean, x);
  }

  /** Every line of the Alipay block is stripped and has no whitespace before a comma. */
  lemma AlipayBlockLineSanitized(lines: seq<string>, x: string)
    requires x in AlipayBlock(lines)
    ensures Trim(x) == x && NoSpaceBeforeComma(x)
  {
    var line := BlockLineSource(lines, OpensBlock, ClosesBlock, AlipayClean, x);
    var d := DropSpacesBeforeCommas(line);
    DroppedHasNoSpaceBeforeComma(line);
    TrimKeepsNoSpaceBeforeComma(d);
    TrimIdempotent(d);
  }

  /** The WeChat text statement has no closing line. */
  predicate NeverCloses(line: string) {
    false
  }

  function StripLine(line: string): string {
    Trim(line)
  }

  /** The WeChat CSV block: every stripped non-blank line after the first line whose stripped form starts with the short marker. */
  function WechatBlock(lines: seq<string>): seq<string> {
    Block(lines, OpensWechatBlock, NeverCloses, StripLine)
  }

  lemma WechatBlockIsRest(lines: seq<string>)
    ensures WechatBlock(lines) == match FirstWhere(lines, OpensWechatBlock)
      case None => []
      case Some(s) => KeptLines(lines[s + 1..], StripLine)
  {
    if FirstWhere(lines, OpensWechatBlock).Some? {
      var s := FirstWhere(lines, OpensWechatBlock).value;
      assert FirstWhere(lines[s + 1..], NeverCloses) == None;
      assert lines[s + 1..][..|lines[s + 1..]|] == lines[s + 1..];
    }
  }

  lemma WechatBlockLineNotEmpty(lines: seq<string>, x: string)
    requires x in WechatBlock(lines)
    ensures x != ""
  {
    BlockLineNotEmpty(lines, OpensWechatBlock, NeverCloses, StripLine, x);
  }

  lemma WechatBlockLineStripped(lines: seq<string>, x: string)
    requires x in WechatBlock(lines)
    ensures Trim(x) == x
  {
    var line := BlockLineSource(lines, OpensWechatBlock, NeverCloses, StripLine, x);
    TrimIdempotent(line);
  }

  // ------------------------------------------------------------ raw frames

  /** A raw frame and the encoding it was read with. */
  datatype RawFrame = RawFrame(table: Table, encoding: string)

  const AlipayNoBlockMessage: string := "未检测到支付宝账单明细数据区域"
  const WechatNoBlockMessage: string := "未检测到微信支付账单数据"
  const OpenpyxlMissingMessage: string := "解析微信账单需要安装 openpyxl 库"
  const ExcelUnreadablePrefix: string := "无法读取微信账单 Excel 文件: "
  const NoHeaderMessage: string := "未在微信账单中找到数据表头"
  const UnreadableCsvMessage: string := "CSV 文件格式无法识别，请检查文件是否为有效的表格数据"

  /** What _parse_alipay returns: the Alipay block read as CSV, or the error for a statement without one. */
  function AlipayFrame(bytes: seq<byte>, lib: Library): Result<RawFrame, string> {
    var block := AlipayBlock(lib.splitLines(lib.decodeGbk(bytes)));
    if block == [] then Err(AlipayNoBlockMessage) else Ok(RawFrame(lib.dictReader(block), "gbk"))
  }

  method ParseAlipay(bytes: seq<byte>, lib: Library) returns (r: Result<RawFrame, string>)
    ensures r == AlipayFrame(bytes, lib)
  {
    var lines := lib.splitLines(lib.decodeGbk(bytes));
    var csvLines := ScanBlock(lines, OpensBlock, ClosesBlock, AlipayClean);
    if csvLines == [] {
      return Err(AlipayNoBlockMessage);
    }
    return Ok(RawFrame(lib.dictReader(csvLines), "gbk"));
  }

  /** What _parse_wechat returns: the WeChat block read as CSV, or the error for a statement without one. */
  function WechatFrame(bytes: seq<byte>, lib: Library): Result<RawFrame, string> {
    var block := WechatBlock(lib.splitLines(lib.decodeUtf8Sig(bytes)));
    if block == [] then Err(WechatNoBlockMessage) else Ok(RawFrame(lib.dictReader(block), "utf-8-sig"))
  }

  method ParseWechat(bytes: seq<byte>, lib: Library) returns (r: Result<RawFrame, string>)
    ensures r == WechatFrame(bytes, lib)
  {
    var lines := lib.splitLines(lib.decodeUtf8Sig(bytes));
    var csvLines := ScanBlock(lines, OpensWechatBlock, NeverCloses, StripLine);
    if csvLines == [] {
      return Err(WechatNoBlockMessage);
    }
    return Ok(RawFrame(lib.dictReader(csvLines), "utf-8-sig"));
  }

  /** The cell of a row at a column position; positions past the row's end read as missing. */
  function CellAt(row: seq<Cell>, j: nat): Cell {
    if j < |row| then row[j] else Missing
  }

  /** The stripped str() of a spreadsheet cell. */
  function CellValue(c: Cell): string {
    Trim(CellString(c))
  }

  /** The stripped str() of every cell of a spreadsheet row. */
  function RowValues(row: seq<Cell>): seq<string> {
    Map(row, CellValue)
  }

  /** The WeChat spreadsheet's header row: it holds "收/支" and one of the two spellings of the amount column. */
  predicate IsHeaderRow(row: seq<Cell>) {
    var values := RowValues(row);
    "收/支" in values && ("金额(元)" in values || "金额（元）" in values)
  }

  const TotalLabel: string := "合计"

  /** The positions of the header's columns other than the total column, in order. */
  function KeptIndices(header: seq<string>): (r: seq<nat>)
    ensures forall k :: 0 <= k < |r| ==> r[k] < |header| && header[r[k]] != TotalLabel
    ensures forall j :: 0 <= j < |header| && header[j] != TotalLabel ==> j in r
  {
    if header == [] then []
    else KeptIndices(header[..|header| - 1]) + (if header[|header| - 1] != TotalLabel then [|header| - 1] else [])
  }

  /** A row restricted to the kept columns. */
  function Project(row: seq<Cell>, kept: seq<nat>): (r: seq<Cell>)
    ensures |r| == |kept| && forall k :: 0 <= k < |kept| ==> r[k] == CellAt(row, kept[k])
  {
    if kept == [] then [] else Project(row, kept[..|kept| - 1]) + [CellAt(row, kept[|kept| - 1])]
  }

  predicate AllMissing(row: seq<Cell>) {
    forall k :: 0 <= k < |row| ==> row[k] == Missing
  }

  /** A data row survives unless its first cell mentions the total or every cell is missing. */
  predicate KeepsDataRow(row: seq<Cell>) {
    !Contains(CellString(CellAt(row, 0)), TotalLabel) && !AllMissing(row)
  }

  /**
   * The frame _parse_wechat_excel builds below the header row h: the rows
   * after it, without the total column and without total or empty rows.
   */
  function WechatExcelTable(grid: seq<seq<Cell>>, h: nat): Table
    requires h < |grid|
  {
    var header := RowValues(grid[h]);
    var kept := KeptIndices(header);
    Table(seq(|kept|, k requires 0 <= k < |kept| => header[kept[k]]),
          Filter(Map(grid[h + 1..], row => Project(row, kept)), KeepsDataRow))
  }

  lemma WechatExcelTableColumns(grid: seq<seq<Cell>>, h: nat)
    requires h < |grid|
    ensures TotalLabel !in WechatExcelTable(grid, h).columns
  {
  }

  lemma WechatExcelTableRows(grid: seq<seq<Cell>>, h: nat, row: seq<Cell>)
    requires h < |grid| && row in WechatExcelTable(grid, h).rows
    ensures KeepsDataRow(row) && |row| == |WechatExcelTable(grid, h).columns|
  {
    var kept := KeptIndices(RowValues(grid[h]));
    var rows := Map(grid[h + 1..], row => Project(row, kept));
    var i :| 0 <= i < |rows| && rows[i] == row;
  }

  /** What _parse_wechat_excel returns, from what pd.read_excel gives back. */
  function WechatExcelFrame(bytes: seq<byte>, lib: Library): Result<RawFrame, string> {
    match lib.readExcel(bytes)
    case Err(MissingEngine) => Err(OpenpyxlMissingMessage)
    case Err(Unreadable(text)) => Err(ExcelUnreadablePrefix + text)
    case Ok(grid) =>
      match FirstWhere(grid, IsHeaderRow)
      case None => Err(NoHeaderMessage)
      case Some(h) => Ok(RawFrame(WechatExcelTable(grid, h), "binary"))
  }

  method ParseWechatExcel(bytes: seq<byte>, lib: Library) returns (r: Result<RawFrame, string>)
    ensures r == WechatExcelFrame(bytes, lib)
  {
    var sheet := lib.readExcel(bytes);
    if sheet.Err? {
      if sheet.error.MissingEngine? {
        return Err(OpenpyxlMissingMessage);
      }
      return Err(ExcelUnreadablePrefix + sheet.error.text);
    }
    var grid := sheet.value;
    var header := FindFirst(grid, IsHeaderRow);
    if header.None? {
      return Err(NoHeaderMessage);
    }
    return Ok(RawFrame(WechatExcelTable(grid, header.value), "binary"));
  }

  /** The header row is the first row that qualifies, so no earlier row does. */
  lemma WechatHeaderIsFirst(bytes: seq<byte>, lib: Library, grid: seq<seq<Cell>>, h: nat)
    requires lib.readExcel(bytes) == Ok(grid) && FirstWhere(grid, IsHeaderRow) == Some(h)
    ensures WechatExcelFrame(bytes, lib) == Ok(RawFrame(WechatExcelTable(grid, h), "binary"))
    ensures IsHeaderRow(grid[h]) && forall j :: 0 <= j < h ==> !IsHeaderRow(grid[j])
  {
  }

  const StandardEncodings: seq<string> := ["utf-8-sig", "utf-8", "gbk"]

  /** The reader stops at this encoding: it gives a frame or raises something it does not catch. */
  predicate Settles(bytes: seq<byte>, lib: Library, encoding: string) {
    !lib.readCsv(bytes, encoding).Rejected?
  }

  /** What _parse_standard returns: the CSV read with the first encoding that does not raise a decode or
      parser error, the exception that encoding raised otherwise, and the unrecognised-CSV error when all three do. */
  function StandardFrame(bytes: seq<byte>, lib: Library): Result<RawFrame, string> {
    match FirstWhere(StandardEncodings, e => Settles(bytes, lib, e))
    case None => Err(UnreadableCsvMessage)
    case Some(k) =>
      var read := lib.readCsv(bytes, StandardEncodings[k]);
      if read.Read? then Ok(RawFrame(read.table, StandardEncodings[k])) else Err(read.message)
  }

  method ParseStandard(bytes: seq<byte>, lib: Library) returns (r: Result<RawFrame, string>)
    ensures r == StandardFrame(bytes, lib)
  {
    for k := 0 to |StandardEncodings|
      invariant forall j :: 0 <= j < k ==> !Settles(bytes, lib, StandardEncodings[j])
    {
      var encoding := StandardEncodings[k];
      var read := lib.readCsv(bytes, encoding);
      if !read.Rejected? {
        FirstWhereAt(StandardEncodings, e => Settles(bytes, lib, e), k);
        if read.Read? {
          return Ok(RawFrame(read.table, encoding));
        }
        return Err(read.message);
      }
    }
    return Err(UnreadableCsvMessage);
  }

  /** The standard reader settles on an encoding only when it reads there and every earlier one was rejected. */
  lemma StandardEncodingIsFirstThatReads(bytes: seq<byte>, lib: Library)
    requires StandardFrame(bytes, lib).Ok?
    ensures var e := StandardFrame(bytes, lib).value.encoding;
      && lib.readCsv(bytes, e).Read?
      && StandardFrame(bytes, lib).value.table == lib.readCsv(bytes, e).table
      && exists k :: 0 <= k < |StandardEncodings| && StandardEncodings[k] == e
           && forall j :: 0 <= j < k ==> lib.readCsv(bytes, StandardEncodings[j]).Rejected?
  {
    var k := FirstWhere(StandardEncodings, e => Settles(bytes, lib, e)).value;
    assert forall j :: 0 <= j < k ==> !Settles(bytes, lib, StandardEncodings[j]);
  }

  /** The unrecognised-CSV error comes exactly when every encoding is rejected, unless an exception carries that very text. */
  lemma StandardFailsOnlyWhenNothingReads(bytes: seq<byte>, lib: Library)
    ensures (forall e :: e in StandardEncodings ==> lib.readCsv(bytes, e).Rejected?) ==> StandardFrame(bytes, lib) == Err(UnreadableCsvMessage)
    ensures StandardFrame(bytes, lib) == Err(UnreadableCsvMessage) ==>
      (forall e :: e in StandardEncodings ==> lib.readCsv(bytes, e).Rejected?)
      || (exists e :: e in StandardEncodings && lib.readCsv(bytes, e) == Raised(UnreadableCsvMessage))
  {
    match FirstWhere(StandardEncodings, e => Settles(bytes, lib, e))
    case None =>
      forall e | e in StandardEncodings ensures lib.readCsv(bytes, e).Rejected? {
        var j :| 0 <= j < |StandardEncodings| && StandardEncodings[j] == e;
      }
    case Some(k) =>
      assert Settles(bytes, lib, StandardEncodings[k]);
  }

  /** An exception other than a decode or parser error stops the search and comes out as the reader's error. */
  lemma StandardRaisesThrough(bytes: seq<byte>, lib: Library, k: nat, message: string)
    requires k < |StandardEncodings| && lib.readCsv(bytes, StandardEncodings[k]) == Raised(message)
    requires forall j :: 0 <= j < k ==> lib.readCsv(bytes, StandardEncodings[j]).Rejected?
    ensures StandardFrame(bytes, lib) == Err(message)
  {
    FirstWhereAt(StandardEncodings, e => Settles(bytes, lib, e), k);
  }

  // --------------------------------------------------------- normalisation

  /** The position of the first candidate column the frame has. */
  function FindColumn(columns: seq<string>, candidates: seq<string>): (r: Option<nat>)
    ensures r.Some? ==> r.value < |columns| && columns[r.value] in candidates
    ensures r.None? <==> forall c :: c in candidates ==> c !in columns
  {
    if candidates == [] then None
    else if candidates[0] in columns then FirstWhere(columns, (c: string) => c == candidates[0])
    else FindColumn(columns, candidates[1..])
  }

  /** The texts pandas prints for a missing value, which the cleaning blanks. */
  const NanSpellings: seq<string> := ["nan", "NaN", "None"]

  /** fillna(""), str(), strip(), blank the missing-value spellings, and optionally drop every '/'. */
  function StringifyCell(c: Cell, removeSlash: bool): string {
    var text := if c.Missing? then "" else Trim(c.text);
    var blanked := if text in NanSpellings then "" else text;
    if removeSlash then RemoveChar(blanked, '/') else blanked
  }

  /**
   * _stringify_column for one row, given the position of the first candidate
   * column the frame has (FindColumn): that column's cleaned text, "" when
   * the frame has none of the candidates.
   */
  function Pick(row: seq<Cell>, column: Option<nat>, removeSlash: bool): string {
    match column
    case None => ""
    case Some(j) => StringifyCell(CellAt(row, j), removeSlash)
  }

  predicate IsAmountChar(ch: char) {
    IsDigit(ch) || ch == '-' || ch == '.'
  }

  /** _to_numeric_amount for one cell: keep digits, '-' and '.', blank means missing, then the magnitude. */
  function ToNumericAmount(c: Cell, lib: Library): (r: Option<real>)
    ensures r.Some? ==> r.value >= 0.0
  {
    var kept := Trim(Filter(if c.Missing? then "" else c.text, IsAmountChar));
    if kept == "" then None
    else match lib.toNumeric(kept)
      case None => None
      case Some(v) => Some(Abs(v))
  }

  /** A cell holding nothing numeric has no amount, whatever pd.to_numeric would make of it. */
  lemma NoAmountWithoutAmountChars(c: Cell, lib: Library)
    requires c.Missing? || forall k :: 0 <= k < |c.text| ==> !IsAmountChar(c.text[k])
    ensures ToNumericAmount(c, lib).None?
  {
    var text := if c.Missing? then "" else c.text;
    FilterNone(text, IsAmountChar);
    assert TrimStart("") == "";
  }

  /** The remark text of _append_refund_flag: stripped, with "nan"/"none" in any case counting as blank. */
  function RemarkText(remark: string): string {
    var text := Trim(remark);
    if Lower(text) in ["nan", "none"] then "" else text
  }

  const RefundedStatus: string := "已退款"

  /** _append_refund_flag: a refunded status is appended to the remark (or replaces a blank one). */
  function AppendRefundFlag(remark: string, status: string): string {
    var remarkText := RemarkText(remark);
    if status != "" && Contains(status, RefundedStatus) then
      (if remarkText != "" then remarkText + " " + status else status)
    else remarkText
  }

  lemma RefundFlagKeepsStatus(remark: string, status: string)
    requires Contains(status, RefundedStatus)
    ensures EndsWith(AppendRefundFlag(remark, status), status)
    ensures RemarkText(remark) != "" ==> StartsWith(AppendRefundFlag(remark, status), RemarkText(remark) + " ")
    ensures RemarkText(remark) == "" ==> AppendRefundFlag(remark, status) == status
  {
    var r := AppendRefundFlag(remark, status);
    if RemarkText(remark) != "" {
      assert r == (RemarkText(remark) + " ") + status;
    }
  }

  lemma RefundFlagOtherwiseRemark(remark: string, status: string)
    requires !Contains(status, RefundedStatus)
    ensures AppendRefundFlag(remark, status) == RemarkText(remark)
  {
  }

  /** A row after the per-format column mapping, before the final cleaning. */
  datatype CleanedRow = CleanedRow(
    time: string, category: string, amount: Option<real>, direction: string,
    payment: string, counterparty: string, item: string, remarks: string)

  /** A normalised row: the eight canonical columns, in canonical order. */
  datatype BillRow = BillRow(
    time: string, category: string, amount: real, direction: string,
    payment: string, counterparty: string, item: string, remarks: string)

  const Directions: seq<string> := ["收入", "支出"]

  /** The cleaning _finalize_cleaned_frame applies to every text column. */
  function FinalText(s: string): string {
    var text := Trim(s);
    if text in NanSpellings then "" else text
  }

  /**
   * _finalize_cleaned_frame for one row: every text column cleaned, and the
   * row dropped unless it has an amount, an income/expense direction and a time.
   */
  function FinalizeRow(c: CleanedRow): Option<BillRow> {
    var time := FinalText(c.time);
    var direction := FinalText(c.direction);
    if c.amount.None? || direction !in Directions || time == "" then None
    else Some(BillRow(time, FinalText(c.category), Abs(c.amount.value), direction,
      FinalText(c.payment), FinalText(c.counterparty), FinalText(c.item), FinalText(c.remarks)))
  }

  /** What every normalised row satisfies. */
  predicate ValidBillRow(y: BillRow) {
    y.time != "" && y.amount >= 0.0 && y.direction in Directions
  }

  lemma FinalizedRowValid(c: CleanedRow)
    requires FinalizeRow(c).Some?
    ensures ValidBillRow(FinalizeRow(c).value)
  {
  }

  /** A row is kept exactly when it has an amount, a direction of 收入 or 支出, and a non-blank time. */
  lemma FinalizeKeepsIff(c: CleanedRow)
    ensures FinalizeRow(c).Some? <==> c.amount.Some? && FinalText(c.direction) in Directions && FinalText(c.time) != ""
  {
  }

  /** The raw, normalised and dropped row counts. */
  datatype Stats = Stats(rawRows: nat, normalizedRows: nat, droppedRows: nat)

  /** _build_stats: the dropped count is the raw count less the normalised one, never below zero. */
  function BuildStats(raw: nat, normalized: nat): (r: Stats)
    ensures r.rawRows == raw && r.normalizedRows == normalized
    ensures r.droppedRows + normalized >= raw
    ensures normalized <= raw ==> r.droppedRows + normalized == raw
  {
    Stats(raw, normalized, Max(raw - normalized, 0) as nat)
  }

  /** A normalised frame and its counts. */
  datatype Normalized = Normalized(rows: seq<BillRow>, stats: Stats)

  function EmptyResult(raw: nat): Normalized {
    Normalized([], BuildStats(raw, 0))
  }

  /** The rows of a frame through one format's per-row pipeline, with the counts. */
  function NormalizedRows(t: Table, pipeline: seq<Cell> -> Option<BillRow>): Normalized {
    var rows := Collect(t.rows, pipeline);
    Normalized(rows, BuildStats(|t.rows|, |rows|))
  }

  lemma NormalizedRowsValid(t: Table, pipeline: seq<Cell> -> Option<BillRow>, y: BillRow)
    requires forall row :: pipeline(row).Some? ==> ValidBillRow(pipeline(row).value)
    requires y in NormalizedRows(t, pipeline).rows
    ensures ValidBillRow(y)
  {
    var row := CollectSource(t.rows, pipeline, y);
    assert pipeline(row).Some?;
  }

  /** Where a format's text columns are, found once per frame. */
  datatype Lookup = Lookup(
    time: Option<nat>, category: Option<nat>, direction: Option<nat>, payment: Option<nat>,
    counterparty: Option<nat>, item: Option<nat>, remarks: Option<nat>, status: Option<nat>)

  // Alipay

  const AlipayAmountColumns: seq<string> := ["金额（元）", "金额(元)", "金额"]
  const AlipayNoAmountMessage: string := "支付宝账单缺少金额列"

  function AlipayLookup(columns: seq<string>): Lookup {
    Lookup(
      FindColumn(columns, ["交易创建时间", "交易时间"]), None, FindColumn(columns, ["收/支", "收支"]), None,
      FindColumn(columns, ["交易对方"]), FindColumn(columns, ["商品名称"]), FindColumn(columns, ["备注"]),
      FindColumn(columns, ["交易状态"]))
  }

  /** Alipay drops rows marked 不计收支 and, when there is a status column, closed transactions. */
  predicate AlipayKeeps(look: Lookup, row: seq<Cell>) {
    && Pick(row, look.direction, false) != "不计收支"
    && (look.status.Some? ==> !Contains(Pick(row, look.status, false), "交易关闭"))
  }

  function AlipayCleaned(look: Lookup, amountColumn: nat, lib: Library, row: seq<Cell>): CleanedRow {
    CleanedRow(
      Pick(row, look.time, false), "", ToNumericAmount(CellAt(row, amountColumn), lib),
      Pick(row, look.direction, false), AlipayPayment, Pick(row, look.counterparty, false),
      Pick(row, look.item, false), Pick(row, look.remarks, false))
  }

  /** The valid mask of the Alipay and WeChat normalisers: a parseable time, an amount, and 收入 or 支出. */
  predicate MaskValid(c: CleanedRow, lib: Library) {
    lib.isTime(c.time) && c.amount.Some? && c.direction in Directions
  }

  function AlipayRow(look: Lookup, amountColumn: nat, lib: Library, row: seq<Cell>): Option<BillRow> {
    if !AlipayKeeps(look, row) then None
    else
      var c := AlipayCleaned(look, amountColumn, lib, row);
      if MaskValid(c, lib) then FinalizeRow(c) else None
  }

  /** _normalize_alipay. */
  function NormalizeAlipay(t: Table, lib: Library): Result<Normalized, string> {
    var look := AlipayLookup(t.columns);
    if |t.rows| == 0 || forall row :: row in t.rows ==> !AlipayKeeps(look, row) then Ok(EmptyResult(|t.rows|))
    else match FindColumn(t.columns, AlipayAmountColumns)
      case None => Err(AlipayNoAmountMessage)
      case Some(a) => Ok(NormalizedRows(t, row => AlipayRow(look, a, lib, row)))
  }

  /** The status filter applies exactly when the frame has a 交易状态 column. */
  lemma AlipayStatusColumn(columns: seq<string>)
    ensures AlipayLookup(columns).status.Some? <==> "交易状态" in columns
  {
  }

  lemma FinalizedFixedText(c: CleanedRow)
    requires FinalizeRow(c).Some?
    ensures FinalizeRow(c).value.payment == FinalText(c.payment)
    ensures FinalizeRow(c).value.category == FinalText(c.category)
  {
  }

  /** A fixed text without surrounding whitespace that is not a missing-value spelling passes the final cleaning unchanged. */
  lemma FinalTextOfPlain(s: string)
    requires s != [] && !IsSpace(s[0]) && !IsSpace(s[|s| - 1])
    requires s[0] != 'n' && s[0] != 'N'
    ensures FinalText(s) == s
  {
    TrimOfTrimmed(s);
    assert NanSpellings[0][0] == 'n' && NanSpellings[1][0] == 'N' && NanSpellings[2][0] == 'N';
  }

  const AlipayPayment: string := "支付宝"
  const WechatPayment: string := "微信支付"

  lemma PaymentTextsUnchanged()
    ensures FinalText(AlipayPayment) == AlipayPayment
    ensures FinalText(WechatPayment) == WechatPayment
  {
    FinalTextOfPlain(AlipayPayment);
    FinalTextOfPlain(WechatPayment);
  }

  lemma FinalTextOfEmpty()
    ensures FinalText("") == ""
  {
    assert TrimStart("") == "";
  }

  /** An Alipay row that survives is one the filter keeps. */
  lemma AlipayRowKept(look: Lookup, amountColumn: nat, lib: Library, row: seq<Cell>)
    requires AlipayRow(look, amountColumn, lib, row).Some?
    ensures AlipayKeeps(look, row)
  {
  }

  /** An Alipay row that survives is paid by 支付宝. */
  lemma AlipayRowPayment(look: Lookup, amountColumn: nat, lib: Library, row: seq<Cell>)
    requires AlipayRow(look, amountColumn, lib, row).Some?
    ensures AlipayRow(look, amountColumn, lib, row).value.payment == AlipayPayment
  {
    FinalizedFixedText(AlipayCleaned(look, amountColumn, lib, row));
    PaymentTextsUnchanged();
  }

  /** An Alipay row that survives has a blank category. */
  lemma AlipayRowCategory(look: Lookup, amountColumn: nat, lib: Library, row: seq<Cell>)
    requires AlipayRow(look, amountColumn, lib, row).Some?
    ensures AlipayRow(look, amountColumn, lib, row).value.category == ""
  {
    FinalizedFixedText(AlipayCleaned(look, amountColumn, lib, row));
    FinalTextOfEmpty();
  }

  /** Every Alipay row comes from a statement row that is neither 不计收支 nor a closed transaction, and is paid by 支付宝. */
  lemma AlipayRowOrigin(t: Table, lib: Library, y: BillRow) returns (row: seq<Cell>)
    requires NormalizeAlipay(t, lib).Ok? && y in NormalizeAlipay(t, lib).value.rows
    ensures row in t.rows && AlipayKeeps(AlipayLookup(t.columns), row)
    ensures y.payment == AlipayPayment && y.category == ""
  {
    var look := AlipayLookup(t.columns);
    var a := FindColumn(t.columns, AlipayAmountColumns).value;
    row := CollectSource(t.rows, row => AlipayRow(look, a, lib, row), y);
    AlipayRowKept(look, a, lib, row);
    AlipayRowPayment(look, a, lib, row);
    AlipayRowCategory(look, a, lib, row);
  }

  lemma AlipayRowValid(look: Lookup, amountColumn: nat, lib: Library, row: seq<Cell>)
    requires AlipayRow(look, amountColumn, lib, row).Some?
    ensures ValidBillRow(AlipayRow(look, amountColumn, lib, row).value)
  {
    FinalizedRowValid(AlipayCleaned(look, amountColumn, lib, row));
  }

  // WeChat (text and spreadsheet)

  const WechatAmountColumns: seq<string> := ["金额(元)", "金额（元）", "金额"]
  const WechatNoAmountMessage: string := "微信账单缺少金额列"

  function WechatLookup(columns: seq<string>): Lookup {
    Lookup(
      FindColumn(columns, ["交易时间"]), None, FindColumn(columns, ["收/支", "收支"]), None,
      FindColumn(columns, ["交易对方"]), FindColumn(columns, ["商品", "商品名称"]), FindColumn(columns, ["备注"]),
      FindColumn(columns, ["当前状态"]))
  }

  /** WeChat drops rows whose direction, without slashes, is blank. */
  predicate WechatKeeps(look: Lookup, row: seq<Cell>) {
    Pick(row, look.direction, true) != ""
  }

  function WechatCleaned(look: Lookup, amountColumn: nat, lib: Library, row: seq<Cell>): CleanedRow {
    CleanedRow(
      Pick(row, look.time, false), "", ToNumericAmount(CellAt(row, amountColumn), lib),
      Pick(row, look.direction, true), WechatPayment, Pick(row, look.counterparty, false),
      Pick(row, look.item, false), AppendRefundFlag(Pick(row, look.remarks, true), Pick(row, look.status, false)))
  }

  function WechatRow(look: Lookup, amountColumn: nat, lib: Library, row: seq<Cell>): Option<BillRow> {
    if !WechatKeeps(look, row) then None
    else
      var c := WechatCleaned(look, amountColumn, lib, row);
      if MaskValid(c, lib) then FinalizeRow(c) else None
  }

  /** _normalize_wechat. */
  function NormalizeWechat(t: Table, lib: Library): Result<Normalized, string> {
    var look := WechatLookup(t.columns);
    if |t.rows| == 0 || forall row :: row in t.rows ==> !WechatKeeps(look, row) then Ok(EmptyResult(|t.rows|))
    else match FindColumn(t.columns, WechatAmountColumns)
      case None => Err(WechatNoAmountMessage)
      case Some(a) => Ok(NormalizedRows(t, row => WechatRow(look, a, lib, row)))
  }

  lemma WechatRowValid(look: Lookup, amountColumn: nat, lib: Library, row: seq<Cell>)
    requires WechatRow(look, amountColumn, lib, row).Some?
    ensures ValidBillRow(WechatRow(look, amountColumn, lib, row).value)
  {
    FinalizedRowValid(WechatCleaned(look, amountColumn, lib, row));
  }

  lemma WechatRowPayment(look: Lookup, amountColumn: nat, lib: Library, row: seq<Cell>)
    requires WechatRow(look, amountColumn, lib, row).Some?
    ensures WechatRow(look, amountColumn, lib, row).value.payment == WechatPayment
  {
    FinalizedFixedText(WechatCleaned(look, amountColumn, lib, row));
    PaymentTextsUnchanged();
  }

  /** Every WeChat row comes from a statement row with a direction, and is paid by 微信支付. */
  lemma WechatRowOrigin(t: Table, lib: Library, y: BillRow) returns (row: seq<Cell>)
    requires NormalizeWechat(t, lib).Ok? && y in NormalizeWechat(t, lib).value.rows
    ensures row in t.rows && WechatKeeps(WechatLookup(t.columns), row)
    ensures y.payment == WechatPayment
  {
    var look := WechatLookup(t.columns);
    var a := FindColumn(t.columns, WechatAmountColumns).value;
    row := CollectSource(t.rows, row => WechatRow(look, a, lib, row), y);
    WechatRowPayment(look, a, lib, row);
  }

  // Standard CSV

  /** The aliases _normalize_generic renames to the canonical amount and direction columns. */
  function RenameColumn(c: string): string {
    if c == "金额（元）" || c == "金额(元)" then "金额" else if c == "收/支" then "收支" else c
  }

  function GenericLookup(columns: seq<string>): Lookup {
    Lookup(
      FindColumn(columns, ["交易时间"]), FindColumn(columns, ["类型"]), FindColumn(columns, ["收支"]),
      FindColumn(columns, ["支付方式"]), FindColumn(columns, ["交易对方"]), FindColumn(columns, ["商品名称"]),
      FindColumn(columns, ["备注"]), None)
  }

  /** A standard CSV keeps only rows whose direction is 收入 or 支出. */
  predicate GenericKeeps(look: Lookup, row: seq<Cell>) {
    Pick(row, look.direction, false) in Directions
  }

  /** Without an amount column every amount is missing. */
  function GenericAmount(amountColumn: Option<nat>, lib: Library, row: seq<Cell>): Option<real> {
    match amountColumn
    case None => None
    case Some(a) => ToNumericAmount(CellAt(row, a), lib)
  }

  function GenericCleaned(look: Lookup, amountColumn: Option<nat>, lib: Library, row: seq<Cell>): CleanedRow {
    CleanedRow(
      Pick(row, look.time, false), Pick(row, look.category, false), GenericAmount(amountColumn, lib, row),
      Pick(row, look.direction, false), Pick(row, look.payment, false), Pick(row, look.counterparty, false),
      Pick(row, look.item, false), Pick(row, look.remarks, false))
  }

  function GenericRow(look: Lookup, amountColumn: Option<nat>, lib: Library, row: seq<Cell>): Option<BillRow> {
    if !GenericKeeps(look, row) then None
    else
      var c := GenericCleaned(look, amountColumn, lib, row);
      if lib.isTime(c.time) && c.amount.Some? then FinalizeRow(c) else None
  }

  /** _normalize_generic, which never fails. */
  function NormalizeGeneric(t: Table, lib: Library): Normalized {
    var columns := Map(t.columns, RenameColumn);
    var look := GenericLookup(columns);
    if |t.rows| == 0 || forall row :: row in t.rows ==> !GenericKeeps(look, row) then EmptyResult(|t.rows|)
    else NormalizedRows(t, row => GenericRow(look, FindColumn(columns, ["金额"]), lib, row))
  }

  lemma GenericRowValid(look: Lookup, amountColumn: Option<nat>, lib: Library, row: seq<Cell>)
    requires GenericRow(look, amountColumn, lib, row).Some?
    ensures ValidBillRow(GenericRow(look, amountColumn, lib, row).value)
  {
    FinalizedRowValid(GenericCleaned(look, amountColumn, lib, row));
  }

  /** A standard CSV without an amount column (under any of its spellings) yields no rows. */
  lemma GenericWithoutAmountIsEmpty(t: Table, lib: Library)
    requires FindColumn(Map(t.columns, RenameColumn), ["金额"]).None?
    ensures NormalizeGeneric(t, lib).rows == []
  {
    var columns := Map(t.columns, RenameColumn);
    var look := GenericLookup(columns);
    var pipeline := row => GenericRow(look, None, lib, row);
    forall row | row in t.rows ensures pipeline(row).None? {
    }
    CollectEmptyIff(t.rows, pipeline);
  }

  /** Every spelling of the amount column is found after the renaming. */
  lemma GenericAmountAliases(t: Table)
    requires "金额" in t.columns || "金额(元)" in t.columns || "金额（元）" in t.columns
    ensures FindColumn(Map(t.columns, RenameColumn), ["金额"]).Some?
  {
    var j :| 0 <= j < |t.columns| && t.columns[j] in ["金额", "金额(元)", "金额（元）"];
    assert Map(t.columns, RenameColumn)[j] == "金额";
  }

  // Dispatch

  /** _normalize_dataframe: one normaliser per format, WeChat text and spreadsheet sharing one. */
  function NormalizeFrame(t: Table, format: Format, lib: Library): Result<Normalized, string> {
    match format
    case Alipay => NormalizeAlipay(t, lib)
    case Wechat => NormalizeWechat(t, lib)
    case WechatXlsx => NormalizeWechat(t, lib)
    case Standard => Ok(NormalizeGeneric(t, lib))
  }

  /** Every normalised row has a time, a non-negative amount and a direction of 收入 or 支出. */
  lemma NormalizedRowValid(t: Table, format: Format, lib: Library, y: BillRow)
    requires NormalizeFrame(t, format, lib).Ok? && y in NormalizeFrame(t, format, lib).value.rows
    ensures ValidBillRow(y)
  {
    match format
    case Alipay =>
      var look := AlipayLookup(t.columns);
      var a := FindColumn(t.columns, AlipayAmountColumns).value;
      var row := CollectSource(t.rows, row => AlipayRow(look, a, lib, row), y);
      AlipayRowValid(look, a, lib, row);
    case Wechat =>
      var look := WechatLookup(t.columns);
      var a := FindColumn(t.columns, WechatAmountColumns).value;
      var row := CollectSource(t.rows, row => WechatRow(look, a, lib, row), y);
      WechatRowValid(look, a, lib, row);
    case WechatXlsx =>
      var look := WechatLookup(t.columns);
      var a := FindColumn(t.columns, WechatAmountColumns).value;
      var row := CollectSource(t.rows, row => WechatRow(look, a, lib, row), y);
      WechatRowValid(look, a, lib, row);
    case Standard =>
      var columns := Map(t.columns, RenameColumn);
      var look := GenericLookup(columns);
      var amount := FindColumn(columns, ["金额"]);
      var row := CollectSource(t.rows, row => GenericRow(look, amount, lib, row), y);
      GenericRowValid(look, amount, lib, row);
  }

  /** The counts describe the frame: every raw row is either normalised or dropped. */
  lemma NormalizedStats(t: Table, format: Format, lib: Library)
    requires NormalizeFrame(t, format, lib).Ok?
    ensures NormalizeFrame(t, format, lib).value.stats.rawRows == |t.rows|
    ensures NormalizeFrame(t, format, lib).value.stats.normalizedRows == |NormalizeFrame(t, format, lib).value.rows|
    ensures NormalizeFrame(t, format, lib).value.stats.droppedRows + |NormalizeFrame(t, format, lib).value.rows| == |t.rows|
  {
  }

  // ------------------------------------------------------------------ parse

  const EmptyFileMessage: string := "文件内容为空"
  const NoRowsMessage: string := "未能从文件中解析到有效的交易数据"

  /** The details reported with the rows: the format, the encoding, the counts and the MD5 signature of the bytes. */
  datatype Details = Details(format: string, encoding: string, stats: Stats, signature: string)

  datatype ParseResult = ParseResult(rows: seq<BillRow>, details: Details)

  /** The raw frame of a detected format. */
  function RawFrameOf(bytes: seq<byte>, format: Format, lib: Library): Result<RawFrame, string> {
    match format
    case Alipay => AlipayFrame(bytes, lib)
    case WechatXlsx => WechatExcelFrame(bytes, lib)
    case Wechat => WechatFrame(bytes, lib)
    case Standard => StandardFrame(bytes, lib)
  }

  /** BillParser.parse: reject empty input, detect, read, normalise, and reject an empty result. */
  function ParseSpec(bytes: seq<byte>, filename: Option<string>, lib: Library): Result<ParseResult, string> {
    if |bytes| == 0 then Err(EmptyFileMessage)
    else
      var format := DetectFormat(bytes, filename, lib);
      match RawFrameOf(bytes, format, lib)
      case Err(e) => Err(e)
      case Ok(raw) =>
        match NormalizeFrame(raw.table, format, lib)
        case Err(e) => Err(e)
        case Ok(n) =>
          if n.rows == [] then Err(NoRowsMessage)
          else Ok(ParseResult(n.rows, Details(FormatName(format), raw.encoding, n.stats, lib.md5(bytes))))
  }

  method Parse(bytes: seq<byte>, filename: Option<string>, lib: Library) returns (r: Result<ParseResult, string>)
    ensures r == ParseSpec(bytes, filename, lib)
  {
    if |bytes| == 0 {
      return Err(EmptyFileMessage);
    }
    var format := DetectFormat(bytes, filename, lib);
    var raw: Result<RawFrame, string>;
    match format {
      case Alipay => raw := ParseAlipay(bytes, lib);
      case WechatXlsx => raw := ParseWechatExcel(bytes, lib);
      case Wechat => raw := ParseWechat(bytes, lib);
      case Standard => raw := ParseStandard(bytes, lib);
    }
    if raw.Err? {
      return Err(raw.error);
    }
    var normalized := NormalizeFrame(raw.value.table, format, lib);
    if normalized.Err? {
      return Err(normalized.error);
    }
    if normalized.value.rows == [] {
      return Err(NoRowsMessage);
    }
    var details := Details(FormatName(format), raw.value.encoding, normalized.value.stats, lib.md5(bytes));
    return Ok(ParseResult(normalized.value.rows, details));
  }

  lemma ParseRejectsEmptyFile(filename: Option<string>, lib: Library)
    ensures ParseSpec([], filename, lib) == Err(EmptyFileMessage)
  {
  }

  /** A successful parse has at least one row, and every row is valid. */
  lemma ParsedRowsValid(bytes: seq<byte>, filename: Option<string>, lib: Library, y: BillRow)
    requires ParseSpec(bytes, filename, lib).Ok? && y in ParseSpec(bytes, filename, lib).value.rows
    ensures ValidBillRow(y)
  {
    var format := DetectFormat(bytes, filename, lib);
    NormalizedRowValid(RawFrameOf(bytes, format, lib).value.table, format, lib, y);
  }

  lemma ParsedRowsNotEmpty(bytes: seq<byte>, filename: Option<string>, lib: Library)
    requires ParseSpec(bytes, filename, lib).Ok?
    ensures |bytes| > 0 && ParseSpec(bytes, filename, lib).value.rows != []
  {
  }

  /** The details name the detected format, count the rows returned, and sign the bytes. */
  lemma ParsedDetails(bytes: seq<byte>, filename: Option<string>, lib: Library)
    requires ParseSpec(bytes, filename, lib).Ok?
    ensures ParseSpec(bytes, filename, lib).value.details.format == FormatName(DetectFormat(bytes, filename, lib))
    ensures ParseSpec(bytes, filename, lib).value.details.signature == lib.md5(bytes)
    ensures ParseSpec(bytes, filename, lib).value.details.stats.normalizedRows == |ParseSpec(bytes, filename, lib).value.rows|
  {
    var format := DetectFormat(bytes, filename, lib);
    NormalizedStats(RawFrameOf(bytes, format, lib).value.table, format, lib);
  }

  /** The encoding reported is the one the format's reader used. */
  lemma ParsedEncoding(bytes: seq<byte>, filename: Option<string>, lib: Library)
    requires ParseSpec(bytes, filename, lib).Ok?
    ensures var format := DetectFormat(bytes, filename, lib);
      var encoding := ParseSpec(bytes, filename, lib).value.details.encoding;
      match format
      case Alipay => encoding == "gbk"
      case WechatXlsx => encoding == "binary"
      case Wechat => encoding == "utf-8-sig"
      case Standard => encoding in StandardEncodings
  {
  }
}
