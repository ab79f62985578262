# FinanceHub core, modelled in Dafny

FinanceHub is a personal finance application. Its backend turns Alipay and WeChat bill
statements into a fixed eight-column transaction table. It imports such tables into a
transaction store, with validation and deduplication, and exports the transactions back
to CSV. It folds the stored transactions into one aggregate row per month: signed category
totals, balance, consumption average, and a rolling three-month average. Analytics read
those monthly rows: category trends, the expense breakdown of a month, a comparison by
year, and the top expense categories. The frontend adds pure rules:
- the date range a time-range token selects;
- the Futu brokerage helpers: configuration parsing, account and market choice, the
  portfolio overview and the thirty-day equity curve;
- the editing rules and submission of the import review table;
- the balance sheet ratios.

The project has ten files, one module each:

| file | module | models |
|---|---|---|
| common.dfy | Common | shared sequence, string and number helpers (Option, Result, Filter, Map, SortBy, Trim, Split, digits) with their lemmas |
| store.dfy | Store | the `transaction_details` and `financial_aggregation` tables, held by a `Database` object |
| bill_parser.dfy | BillParser | format detection, block extraction, header scan, per-format normalisation, amount cleaning, refund flags, statistics |
| importer.dfy | TransactionImport | cleaning, column validation, the import row loop with its three buckets, the duplicate predicate, the aggregate refresh, export |
| aggregation.dfy | Aggregation | the category mapping, the month fold, the housing, consumption and recent averages, the per-month upsert loop |
| analytics.dfy | FinancialAnalytics | category trends, monthly breakdown, year comparison, top categories |
| date_utils.dfy | DateUtils | time-range tokens, custom ranges, available years, month range, latest month |
| futu.dfy | FutuPortfolio | the Futu service's conversions, tables, account choice, target markets, overview, equity and equity curve |
| import_review.dfy | ImportReview | the review page's converters, editing rules, row operations, submission payload and shared state |
| balance_sheet.dfy | BalanceSheet | the financial ratios of the balance sheet page |

Where the source changes state in place, the model does too:
- the importer and the aggregation run are methods on the `Store.Database` object;
- the Futu service keeps its account in a `PortfolioService` object;
- the import review state is a `ReviewState` object.

Each such method is proved against a function of the old state. The lemmas about that
function carry the properties: one bucket per row, one upsert per month, and the ordering
of the equity curve. Library behaviour is passed in as function-typed parameters: pandas
reading and coercion, timestamp parsing, decoding, line splitting, hashing and JavaScript
number parsing. The model states what the code does with their results.

## Model

| member | source | states |
|---|---|---|
| Store.DateTimeKey | backend/app/models/base.py:15 | the ordering key of a transaction time has six parts starting with its year and month |
| Store.DateTimeLeTotalPreorder | backend/app/models/base.py:15 | ordering transaction times field by field is a total preorder |
| Store.AllFieldsListed | backend/app/models/base.py:34-46 | every numeric column of the aggregation table is in the column list |
| Store.Set | backend/app/models/base.py:34-46 | writing one column sets that column and leaves every other column unchanged |
| Store.ColumnsExtensional | backend/app/models/base.py:34-46 | two aggregation rows with equal columns are equal |
| Store.Database.constructor | backend/app/models/base.py:9-48 | the database holds the given transaction and aggregation tables |
| BillParser.FormatNameInjective | backend/app/services/bill_parser_service.py:70-98 | the four format names reported in the details are pairwise distinct |
| BillParser.SpreadsheetNameDecides | backend/app/services/bill_parser_service.py:71-75 | a file name ending in .xlsx or .xls decides the format without looking at the bytes: alipay exactly when the name has an Alipay keyword, otherwise wechat_xlsx |
| BillParser.ZipSignatureWins | backend/app/services/bill_parser_service.py:78-79 | outside a spreadsheet name, bytes opening with the ZIP signature are a WeChat spreadsheet whatever the name or text says |
| BillParser.NameKeywordDecides | backend/app/services/bill_parser_service.py:81-84 | a keyword in the file name decides before the text is read, an Alipay keyword taking precedence over a WeChat one |
| BillParser.StandardIsFallback | backend/app/services/bill_parser_service.py:70-98 | the standard format is chosen exactly when no extension, signature, name keyword or text keyword rule applies |
| BillParser.DroppedHasNoSpaceBeforeComma | backend/app/services/bill_parser_service.py:130 | after the sanitizing substitution no whitespace character is directly followed by a comma |
| BillParser.SpaceRunHasPair | backend/app/services/bill_parser_service.py:130 | a whitespace character in front of a whitespace run ending in a comma leaves a whitespace-comma pair |
| BillParser.DropIsIdentityIff | backend/app/services/bill_parser_service.py:130 | the substitution leaves a line unchanged exactly when the line has no whitespace directly before a comma |
| BillParser.TrimKeepsNoSpaceBeforeComma | backend/app/services/bill_parser_service.py:130 | stripping a sanitized line keeps it free of whitespace before commas |
| BillParser.KeptLines | backend/app/services/bill_parser_service.py:130-132 | collecting the non-empty cleaned lines never yields more lines than it is given |
| BillParser.KeptLineNotEmpty | backend/app/services/bill_parser_service.py:131-132 | every collected line is non-empty |
| BillParser.KeptLineSource | backend/app/services/bill_parser_service.py:130-132 | every collected line is the cleaned form of some input line |
| BillParser.BlockOpened | backend/app/services/bill_parser_service.py:121-132 | the block is the cleaned lines strictly between the first opening line and the first later closing line |
| BillParser.FindFirst | backend/app/services/bill_parser_service.py:177-183 | the forward scan returns the first position whose element satisfies the test, or none when no element does |
| BillParser.ScanUntil | backend/app/services/bill_parser_service.py:127-132 | the scan stops at the first closing line or the end, no line before the stop closes, and what it keeps is exactly the non-empty cleaned lines it passed |
| BillParser.ScanBlock | backend/app/services/bill_parser_service.py:119-132 | the statement scan (skip to the opening marker, then clean and keep lines until the closing marker) returns exactly the block function |
| BillParser.BlockLineNotEmpty | backend/app/services/bill_parser_service.py:131-132 | no line of a statement block is empty |
| BillParser.BlockLineSource | backend/app/services/bill_parser_service.py:119-132 | each line of a block is the cleaned form of a line of the statement |
| BillParser.AlipayBlockLineNotEmpty | backend/app/services/bill_parser_service.py:130-132 | every line handed to the Alipay CSV reader is non-empty |
| BillParser.AlipayBlockLineSanitized | backend/app/services/bill_parser_service.py:130 | every line handed to the Alipay CSV reader is stripped and has no whitespace before a comma |
| BillParser.WechatBlockIsRest | backend/app/services/bill_parser_service.py:146-157 | the WeChat block is every stripped non-blank line after the first line whose stripped form starts with the marker, since nothing closes it |
| BillParser.WechatBlockLineNotEmpty | backend/app/services/bill_parser_service.py:155-157 | no line handed to the WeChat CSV reader is blank |
| BillParser.WechatBlockLineStripped | backend/app/services/bill_parser_service.py:149-157 | every line handed to the WeChat CSV reader is stripped |
| BillParser.ParseAlipay | backend/app/services/bill_parser_service.py:114-139 | the Alipay reader returns the GBK-decoded block read as CSV with encoding gbk, or the no-block error when the block is empty |
| BillParser.ParseWechat | backend/app/services/bill_parser_service.py:141-164 | the WeChat text reader returns the utf-8-sig block read as CSV, or the no-data error when the block is empty |
| BillParser.KeptIndices | backend/app/services/bill_parser_service.py:192-193 | the kept column positions are exactly the positions of the header whose label is not the total column |
| BillParser.Project | backend/app/services/bill_parser_service.py:192-193 | restricting a row to the kept columns gives one cell per kept position, the row's cell at that position |
| BillParser.WechatExcelTableColumns | backend/app/services/bill_parser_service.py:188-193 | the spreadsheet frame has no total column |
| BillParser.WechatExcelTableRows | backend/app/services/bill_parser_service.py:189-196 | every spreadsheet data row has one cell per column, a first cell without the total label, and at least one cell present |
| BillParser.ParseWechatExcel | backend/app/services/bill_parser_service.py:166-198 | the spreadsheet reader reports the missing-engine and unreadable-file errors, the missing-header error, or the frame below the first header row with encoding binary |
| BillParser.WechatHeaderIsFirst | backend/app/services/bill_parser_service.py:176-183 | the header row used is one that holds 收/支 and an amount label, and no earlier row does |
| BillParser.ParseStandard | backend/app/services/bill_parser_service.py:100-112 | the standard reader tries utf-8-sig, utf-8, gbk in turn, skipping an encoding that raises a decode or parser error; it returns the first frame read, the first other exception, or the unrecognised-CSV error |
| BillParser.StandardEncodingIsFirstThatReads | backend/app/services/bill_parser_service.py:102-107 | a frame is returned only from an encoding that reads, that is one of the three, and before which every encoding raised a decode or parser error |
| BillParser.StandardFailsOnlyWhenNothingReads | backend/app/services/bill_parser_service.py:102-112 | when every encoding raises a decode or parser error the result is the unrecognised-CSV error, and that error comes only then or from an exception with the same text |
| BillParser.StandardRaisesThrough | backend/app/services/bill_parser_service.py:104-111 | an exception other than a decode or parser error is not caught: the later encodings are not tried and the exception's text is the error |
| BillParser.FindColumn | backend/app/services/bill_parser_service.py:399-404 | the column found holds one of the candidates, and none is found exactly when the frame has none of them |
| BillParser.ToNumericAmount | backend/app/services/bill_parser_service.py:406-411 | a parsed amount is never negative |
| BillParser.NoAmountWithoutAmountChars | backend/app/services/bill_parser_service.py:408-409 | a missing cell, or one without digits, '-' or '.', has no amount |
| BillParser.RefundFlagKeepsStatus | backend/app/services/bill_parser_service.py:413-421 | a refunded status is appended after the remark and a space, or stands alone when the remark is blank |
| BillParser.RefundFlagOtherwiseRemark | backend/app/services/bill_parser_service.py:414-422 | without a refunded status the remark is returned stripped, with nan and none in any case blanked |
| BillParser.FinalizedRowValid | backend/app/services/bill_parser_service.py:472-477 | a finalised row has a time, an amount of at least zero, and the direction 收入 or 支出 |
| BillParser.FinalizeKeepsIff | backend/app/services/bill_parser_service.py:465-477 | the final cleaning keeps a row exactly when it has an amount, an income or expense direction and a non-blank time |
| BillParser.BuildStats | backend/app/services/bill_parser_service.py:390-397 | the counts report the raw and normalised numbers, and dropped plus normalised add up to the raw count when nothing was invented |
| BillParser.NormalizedRowsValid | backend/app/services/bill_parser_service.py:263-268 | when every row the pipeline keeps is valid, every row of the normalised frame is valid |
| BillParser.AlipayStatusColumn | backend/app/services/bill_parser_service.py:222-225 | the closed-transaction filter applies exactly when the frame has a 交易状态 column |
| BillParser.FinalizedFixedText | backend/app/services/bill_parser_service.py:465-468 | the payment and category of a finalised row are their column texts after the final cleaning |
| BillParser.FinalTextOfPlain | backend/app/services/bill_parser_service.py:467-468 | a text without surrounding whitespace that is not a missing-value spelling survives the final cleaning unchanged |
| BillParser.PaymentTextsUnchanged | backend/app/services/bill_parser_service.py:237 | the fixed payment texts 支付宝 and 微信支付 survive the final cleaning unchanged |
| BillParser.FinalTextOfEmpty | backend/app/services/bill_parser_service.py:238 | the blank category survives the final cleaning as blank |
| BillParser.AlipayRowKept | backend/app/services/bill_parser_service.py:218-225 | an Alipay row that survives is neither 不计收支 nor a closed transaction |
| BillParser.AlipayRowPayment | backend/app/services/bill_parser_service.py:237 | every Alipay row is paid by 支付宝 |
| BillParser.AlipayRowCategory | backend/app/services/bill_parser_service.py:238 | every Alipay row has a blank category |
| BillParser.AlipayRowOrigin | backend/app/services/bill_parser_service.py:210-268 | every normalised Alipay row comes from a statement row the filters keep, is paid by 支付宝 and has a blank category |
| BillParser.AlipayRowValid | backend/app/services/bill_parser_service.py:256-266 | every Alipay row that survives the valid mask and the final cleaning is valid |
| BillParser.WechatRowValid | backend/app/services/bill_parser_service.py:315-325 | every WeChat row that survives is valid |
| BillParser.WechatRowPayment | backend/app/services/bill_parser_service.py:292 | every WeChat row is paid by 微信支付 |
| BillParser.WechatRowOrigin | backend/app/services/bill_parser_service.py:270-327 | every normalised WeChat row comes from a statement row with a non-blank direction and is paid by 微信支付 |
| BillParser.GenericRowValid | backend/app/services/bill_parser_service.py:376-380 | every standard CSV row that survives is valid |
| BillParser.GenericWithoutAmountIsEmpty | backend/app/services/bill_parser_service.py:357-361 | a standard CSV without any amount column yields no rows |
| BillParser.GenericAmountAliases | backend/app/services/bill_parser_service.py:337-345 | each of the three spellings of the amount column is found after the renaming |
| BillParser.NormalizedRowValid | backend/app/services/bill_parser_service.py:200-208 | whatever the format, every normalised row has a time, a non-negative amount and a direction of 收入 or 支出 |
| BillParser.NormalizedStats | backend/app/services/bill_parser_service.py:384-397 | the counts give the frame's row count, the number of rows returned, and dropped plus returned equal to the raw count |
| BillParser.Parse | backend/app/services/bill_parser_service.py:39-67 | parsing rejects empty input, runs the detected format's reader and normaliser, propagates their errors, rejects an empty result, and otherwise returns the rows with the details |
| BillParser.ParseRejectsEmptyFile | backend/app/services/bill_parser_service.py:41-42 | an empty file is rejected with 文件内容为空 |
| BillParser.ParsedRowsValid | backend/app/services/bill_parser_service.py:39-67 | every row of a successful parse is valid |
| BillParser.ParsedRowsNotEmpty | backend/app/services/bill_parser_service.py:64-65 | a successful parse came from non-empty bytes and returns at least one row |
| BillParser.ParsedDetails | backend/app/services/bill_parser_service.py:57-62 | the details name the detected format, carry the MD5 signature of the bytes, and count the rows returned |
| BillParser.ParsedEncoding | backend/app/services/bill_parser_service.py:44-53 | the encoding reported is gbk, binary or utf-8-sig for the three statement formats and one of the three CSV encodings otherwise |
| TransactionImport.CleanString | backend/app/services/transaction_import_export_service.py:32-47 | a cleaned cell is empty or the stripped text of a present cell |
| TransactionImport.CleanedIsTrimmed | backend/app/services/transaction_import_export_service.py:46-47 | a cleaned value has no surrounding whitespace |
| TransactionImport.EmptyIffCleansToEmpty | backend/app/services/transaction_import_export_service.py:32-64 | a value counts as empty exactly when it cleans to the empty string |
| TransactionImport.OptionalText | backend/app/services/transaction_import_export_service.py:270-273 | an optional column is stored as NULL exactly when its cleaned text is empty, and otherwise as that text |
| TransactionImport.MissingColumns | backend/app/services/transaction_import_export_service.py:335-338 | the missing columns are exactly the canonical columns the frame lacks |
| TransactionImport.ValidateFormat | backend/app/services/transaction_import_export_service.py:324-353 | the format check passes exactly when every canonical column is present and there is a data row, and otherwise gives the missing-columns or the no-data-rows message |
| TransactionImport.NoneMissing | backend/app/services/transaction_import_export_service.py:338-339 | no column is missing exactly when every canonical column is present |
| TransactionImport.ValidFrameRowsHaveColumns | backend/app/services/transaction_import_export_service.py:194-216 | after a passing format check every row has a cell for each canonical column, so the row loop's lookups succeed |
| TransactionImport.ExactMatchIsPrefixMatch | backend/app/services/transaction_import_export_service.py:388-403 | for a non-blank value the exact-match condition adds nothing to the prefix match |
| TransactionImport.CellsOf | backend/app/services/transaction_import_export_service.py:214-263 | the eight cells the row loop reads are the row's cells under the eight canonical columns |
| TransactionImport.FirstEmptyField | backend/app/services/transaction_import_export_service.py:214-217 | the field reported is the first blank one of time, category, amount and direction in that order, and none is reported exactly when all four are filled |
| TransactionImport.CheckedTextNotBlank | backend/app/services/transaction_import_export_service.py:233-239 | past the required-field check, category and direction never clean to blank |
| TransactionImport.ClassifyPassed | backend/app/services/transaction_import_export_service.py:219-277 | a row whose cells are filled and whose time and non-negative amount parse is either a duplicate or added |
| TransactionImport.NotSkippedPassed | backend/app/services/transaction_import_export_service.py:212-277 | every added or duplicate row passed the required-field, time, amount and sign checks |
| TransactionImport.LaterSkipReasons | backend/app/services/transaction_import_export_service.py:219-231 | past the required-field check, a row is skipped only for a time format, amount format or negative amount error |
| TransactionImport.NotBlankTextMessage | backend/app/services/transaction_import_export_service.py:214-239 | none of the earlier reasons is the blank category or blank direction message |
| TransactionImport.SkipReasons | backend/app/services/transaction_import_export_service.py:212-297 | a skipped row's reason is a required-field, time, amount format or negative amount message; the blank category and blank direction errors are never raised |
| TransactionImport.RequiredFieldReason | backend/app/services/transaction_import_export_service.py:214-217 | a row is skipped for a blank required field exactly when one of its four required cells is blank |
| TransactionImport.DuplicateIff | backend/app/services/transaction_import_export_service.py:241-258 | a row is a duplicate exactly when deduplication is on, the row passes its checks, and the store holds a transaction with the same time and amount whose counterparty and item name match |
| TransactionImport.NotDuplicateWithoutDedup | backend/app/services/transaction_import_export_service.py:241 | with deduplication off no row is a duplicate |
| TransactionImport.ImportedRowShape | backend/app/services/transaction_import_export_service.py:260-274 | an added transaction has the parsed time and non-negative amount, the cleaned non-blank category and direction, and NULL exactly for each blank optional column |
| TransactionImport.RowText | backend/app/services/transaction_import_export_service.py:285-294 | an error entry carries the raw text of the eight canonical cells |
| TransactionImport.Reports | backend/app/services/transaction_import_export_service.py:212-297 | each row contributes exactly one report |
| TransactionImport.ReportAt | backend/app/services/transaction_import_export_service.py:212-297 | report i is row i's outcome, numbered i + 2 |
| TransactionImport.ReportsNumbered | backend/app/services/transaction_import_export_service.py:212-297 | every error and duplicate entry carries its row's number, the frame index plus 2 |
| TransactionImport.TallyPartition | backend/app/services/transaction_import_export_service.py:206-297 | every row lands in exactly one of the added, error and duplicate lists |
| TransactionImport.ErrorsAreRejectedRows | backend/app/services/transaction_import_export_service.py:279-297 | each error entry is the report of the row it names, with rows ascending |
| TransactionImport.RejectedRowsAreListed | backend/app/services/transaction_import_export_service.py:279-297 | every rejected row's entry is in the error list |
| TransactionImport.DuplicatesAreRepeatedRows | backend/app/services/transaction_import_export_service.py:248-258 | each duplicate entry is the report of the row it names, with rows ascending |
| TransactionImport.RepeatedRowsAreListed | backend/app/services/transaction_import_export_service.py:248-258 | every repeated row's entry is in the duplicate list |
| TransactionImport.ImportedAreAddedRows | backend/app/services/transaction_import_export_service.py:265-277 | the added transactions are exactly those of the added rows |
| TransactionImport.NoRepeatedRows | backend/app/services/transaction_import_export_service.py:241-258 | rows that are never duplicates leave the duplicate list empty |
| TransactionImport.ErrorEntriesAreSkippedRows | backend/app/services/transaction_import_export_service.py:279-296 | every error entry names a row of the frame that was skipped, with that row's raw cells and reason |
| TransactionImport.ErrorEntryIsSkippedRow | backend/app/services/transaction_import_export_service.py:279-296 | an error entry names a frame row and is that row's rejection report |
| TransactionImport.ErrorEntriesAscending | backend/app/services/transaction_import_export_service.py:212-297 | error entries are listed in ascending row order |
| TransactionImport.SkippedRowsAreListed | backend/app/services/transaction_import_export_service.py:279-296 | every skipped row has its entry in the error list |
| TransactionImport.DuplicateEntriesAreDuplicateRows | backend/app/services/transaction_import_export_service.py:248-258 | every duplicate entry names a duplicate row of the frame, with the fixed duplicate reason |
| TransactionImport.DuplicateEntryIsDuplicateRow | backend/app/services/transaction_import_export_service.py:248-258 | a duplicate entry names a frame row and is that row's duplicate report |
| TransactionImport.DuplicateEntriesAscending | backend/app/services/transaction_import_export_service.py:212-258 | duplicate entries are listed in ascending row order |
| TransactionImport.DuplicateRowsAreListed | backend/app/services/transaction_import_export_service.py:248-258 | every duplicate row has an entry in the duplicate list |
| TransactionImport.ImportedAreImportedRows | backend/app/services/transaction_import_export_service.py:265-277 | the added transactions are exactly those of the rows classified as added |
| TransactionImport.FramePartition | backend/app/services/transaction_import_export_service.py:206-297 | imported, skipped and duplicate counts add up to the number of rows |
| TransactionImport.NoDuplicatesWithoutDedup | backend/app/services/transaction_import_export_service.py:241 | with deduplication off the duplicate list is empty |
| TransactionImport.ImportedAreValid | backend/app/services/transaction_import_export_service.py:224-239 | every added transaction has a non-negative amount and a non-blank category and direction |
| TransactionImport.Failed | backend/app/services/transaction_import_export_service.py:196-204 | a failed import reports the message, zero counts and empty detail lists |
| TransactionImport.RefreshFinancialAggregation | backend/app/services/transaction_import_export_service.py:418-442 | the refresh empties the aggregate table and rebuilds every month from no visible rows, rolls back and re-raises a delete failure, and leaves the table empty when the rebuild itself fails |
| TransactionImport.ValidateRows | backend/app/services/transaction_import_export_service.py:206-297 | the row loop appends exactly the added transactions, lists exactly the error and duplicate entries, and keeps the counters equal to the list lengths |
| TransactionImport.ImportDataFrame | backend/app/services/transaction_import_export_service.py:185-322 | an import fails without changes on a bad format or a commit failure; otherwise the accepted rows of the tally stay added; a failure deleting the old aggregates then reports "数据导入失败: " with zero counts and keeps the old aggregates; otherwise the import reports the counts and details of the tally and the aggregates are rebuilt, or left empty when the rebuild fails |
| TransactionImport.ImportFromCsv | backend/app/services/transaction_import_export_service.py:129-170 | an unreadable CSV fails with "读取CSV失败: " and the read error and changes nothing; a readable one has every outcome of the frame import: format error, commit failure, delete failure, success with the tally's counts and rebuilt or emptied aggregates |
| TransactionImport.UpsertRow | backend/app/services/aggregation_service.py:122-143 | a row of an upserted table is the new row or the row that stood in its place |
| TransactionImport.RebuiltFromEmptyRows | backend/app/services/transaction_import_export_service.py:430-435 | every row of a table rebuilt from nothing holds some processed month's data under that month's key |
| TransactionImport.RefreshedMonthAverages | backend/app/services/transaction_import_export_service.py:430-435 | after the refresh a month's average consumption is its own six-category consumption and its rolling average equals it |
| TransactionImport.RefreshedRowsHaveNoHistory | backend/app/services/transaction_import_export_service.py:430-435 | every row the refresh writes has recent_avg_consumption equal to avg_consumption |
| TransactionImport.LastSecondExcluded | backend/app/services/transaction_import_export_service.py:92-95 | the filter as written leaves out a transaction at 23:59:59 on the end date |
| TransactionImport.LastDayIncluded | backend/app/services/transaction_import_export_service.py:93 | the corrected filter includes every time on the end date, as its comment intends |
| TransactionImport.DateTimeKeyInjective | backend/app/services/transaction_import_export_service.py:91-95 | two times with the same comparison key are equal |
| TransactionImport.WindowsAgreeElsewhere | backend/app/services/transaction_import_export_service.py:89-95 | the as-written and corrected filters differ only at 23:59:59 of the end date |
| TransactionImport.NewerOrSameTotalPreorder | backend/app/services/transaction_import_export_service.py:98 | newest-first order is a total preorder |
| TransactionImport.SelectNewestFirstProperties | backend/app/services/transaction_import_export_service.py:86-98 | a filtered selection newest first holds exactly the store's transactions that pass the filter, each as often as stored, ordered by time descending |
| TransactionImport.ExportOrderProperties | backend/app/services/transaction_import_export_service.py:86-98 | the export holds exactly the store's transactions in the window as written (from the start of the first day, strictly before 23:59:59 of the last), each as often as stored, newest first |
| TransactionImport.ExportOrderCorrectedProperties | backend/app/services/transaction_import_export_service.py:93 | the corrected export holds exactly the store's transactions from the start of the first day through the whole last day, each as often as stored, newest first |
| TransactionImport.ExportMissesLastSecond | backend/app/services/transaction_import_export_service.py:92-98 | a store holding one transaction at 23:59:59 of the end date exports nothing as written and that transaction when corrected |
| TransactionImport.OrEmpty | backend/app/services/transaction_import_export_service.py:108-111 | a NULL optional column is exported as "" and any other value as itself |
| TransactionImport.OrEmptyRoundTrip | backend/app/services/transaction_import_export_service.py:108-111 | an exported optional column reads back as the stored value when imported again |
| TransactionImport.ExportRows | backend/app/services/transaction_import_export_service.py:101-112 | the export has one row per transaction |
| TransactionImport.ExportRowsIndex | backend/app/services/transaction_import_export_service.py:102-112 | row i of the export is the shaping of transaction i |
| TransactionImport.ExportToCsv | backend/app/services/transaction_import_export_service.py:66-124 | an exception while exporting is re-raised as "导出CSV失败: " and its text; otherwise the exported rows are the shaped transactions of the as-written window, newest first |
| TransactionImport.ExportToCsvCorrected | backend/app/services/transaction_import_export_service.py:66-124 | the same export with the whole end day included, with the same error path |
| TransactionImport.ShapeRows | backend/app/services/transaction_import_export_service.py:101-112 | the shaping loop returns one shaped row per transaction, in order |
| Aggregation.CategoryMappingTable | backend/app/services/aggregation_service.py:19-31 | the category mapping built from the transaction-type enumeration sends each of the ten stored category values to its lower-cased member name |
| Aggregation.LowerNames | backend/app/services/aggregation_service.py:29 | lower-casing the ten enumeration member names gives the ten column names |
| Aggregation.FinancialFieldsAreFields | backend/app/services/aggregation_service.py:34-48 | the numeric fields, every column but id, month_date, created_at and updated_at, are exactly the thirteen aggregate columns of the model |
| Aggregation.CategoryFieldIsMapping | backend/app/services/aggregation_service.py:235-244 | a category feeds a column exactly when the mapping knows it and names a numeric field, and then it feeds the column of that name |
| Aggregation.SignedAmount | backend/app/services/aggregation_service.py:227-233 | an expense adds minus its magnitude, an income adds its magnitude, and any other direction adds the amount as stored |
| Aggregation.GetAdd | backend/app/services/aggregation_service.py:240 | adding two column sets adds each column |
| Aggregation.CategoryTotalsField | backend/app/services/aggregation_service.py:222-244 | each category column of a month is the sum of the signed amounts of the transactions mapped to it |
| Aggregation.CurrentMonthConsumption | backend/app/services/aggregation_service.py:292-306 | the month's consumption, the sum of the magnitudes of dining, living, entertainment, transportation, travel and gifts, is never negative |
| Aggregation.ConsumptionIgnoresOtherFields | backend/app/services/aggregation_service.py:294-306 | housing, social expenses, transactions, salary, balance and the averages do not change the consumption |
| Aggregation.HousingAverageWithin | backend/app/services/aggregation_service.py:336-353 | the housing average lies between the smallest and largest housing magnitude of the stored rows |
| Aggregation.HousingAverageCountsEmptyMonths | backend/app/services/aggregation_service.py:344-349 | a stored month without housing keeps the housing total and still counts as a month |
| Aggregation.MonthsBefore | backend/app/services/aggregation_service.py:382-390 | going back i months gives a valid month exactly i months earlier |
| Aggregation.MonthsBeforeYearWrap | backend/app/services/aggregation_service.py:388-390 | going back from January or February wraps to the months of the previous year |
| Aggregation.MonthKeyInjective | backend/app/services/aggregation_service.py:120 | two months with the same Y/M/1 key are the same month |
| Aggregation.MonthKeySplit | backend/app/services/aggregation_service.py:120 | the month key splits at '/' into the year, the month and 1 |
| Aggregation.FindRecord | backend/app/services/aggregation_service.py:122-127 | the lookup finds the first stored row under the key, and none exactly when no row has the key |
| Aggregation.PriorAvg | backend/app/services/aggregation_service.py:392-399 | an earlier month's value is the average consumption of some stored row |
| Aggregation.RecentValues | backend/app/services/aggregation_service.py:385-399 | the rolling average is taken over the current month's value and up to two stored earlier values |
| Aggregation.RecentAvgWithoutHistory | backend/app/services/aggregation_service.py:401-405 | with no stored rows the rolling average is the current month's average consumption |
| Aggregation.MeanWithin | backend/app/services/aggregation_service.py:402-403 | the mean of one to three values lies within their range |
| Aggregation.PriorAvgWithin | backend/app/services/aggregation_service.py:392-399 | an earlier month's value lies within the range of the stored average consumptions |
| Aggregation.RecentAvgWithin | backend/app/services/aggregation_service.py:360-416 | the rolling average, including its fall-back to the current value on a date error, lies within the range of the current and stored average consumptions |
| Aggregation.MonthDataBalance | backend/app/services/aggregation_service.py:246-248 | a month's balance is its total income minus its total expense |
| Aggregation.MonthDataField | backend/app/services/aggregation_service.py:217-244 | every category column of a month is that category's signed total |
| Aggregation.MonthDataAverages | backend/app/services/aggregation_service.py:250-261 | the average consumption is the month's consumption plus the housing average, and the rolling average is taken with it |
| Aggregation.FieldTotalUnfed | backend/app/services/aggregation_service.py:217 | a column no transaction is mapped to stays at 0.0 |
| Aggregation.FieldTotalSign | backend/app/services/aggregation_service.py:228-233 | a column fed only by expenses is never positive and one fed only by incomes is never negative |
| Aggregation.MonthDataOrderIndependent | backend/app/services/aggregation_service.py:222-266 | a month's data does not depend on the order of its transactions |
| Aggregation.AddToIsAdd | backend/app/services/aggregation_service.py:236-240 | adding an amount to the mapped column is adding the transaction's contribution to every column |
| Aggregation.FoldIsTotals | backend/app/services/aggregation_service.py:217-244 | the fold over the month computes the per-column signed sums, the total income and the total expense |
| Aggregation.FoldData | backend/app/services/aggregation_service.py:222-244 | the fold's columns are the per-column signed sums |
| Aggregation.FoldIncome | backend/app/services/aggregation_service.py:231-233 | the fold's income is the sum of the income magnitudes |
| Aggregation.FoldExpense | backend/app/services/aggregation_service.py:228-230 | the fold's expense is the sum of the expense magnitudes |
| Aggregation.CalculateMonthAggregation | backend/app/services/aggregation_service.py:177-266 | the single-pass loop over a month's transactions returns the month's data: signed category totals, balance, average and rolling average |
| Aggregation.ScopedMonthsDistinct | backend/app/services/aggregation_service.py:86-101 | the months to process are distinct |
| Aggregation.ScopedMonthsCover | backend/app/services/aggregation_service.py:86-101 | the month of every transaction within the year and month filters is processed |
| Aggregation.ScopedMonthsSources | backend/app/services/aggregation_service.py:86-101 | only months of transactions within the filters are processed |
| Aggregation.UpdateRecord | backend/app/services/aggregation_service.py:438-455 | an update keeps the row's key and overwrites all of its numeric columns |
| Aggregation.RebuiltStep | backend/app/services/aggregation_service.py:108-145 | each further month is one more upsert, and one more created row when its key is missing |
| Aggregation.UpsertKeepsOthers | backend/app/services/aggregation_service.py:122-143 | an upsert keeps every row's key and every row under another key, and appends a row only when the key is missing |
| Aggregation.UpsertHolds | backend/app/services/aggregation_service.py:129-143 | after an upsert a row under the key holds the new data |
| Aggregation.RebuiltKeepsOtherRows | backend/app/services/aggregation_service.py:108-145 | the run keeps rows of months it does not process in place and unchanged, and appends one row per created month |
| Aggregation.RebuiltUniqueKeys | backend/app/services/aggregation_service.py:122-143 | a table with one row per key keeps one row per key |
| Aggregation.RebuiltHoldsMonth | backend/app/services/aggregation_service.py:108-145 | after the run every processed month has a row under its key holding that month's data |
| Aggregation.AggregateMonthlyData | backend/app/services/aggregation_service.py:50-175 | the run leaves the transactions alone; on success it upserts one row per month in scope and counts processed as created plus updated; on a store failure it rolls back and reports zero counts with the 聚合失败 message |
| FinancialAnalytics.TrendColumn | backend/app/services/financial_service.py:38-53 | a category name selects the column of that name when it is one of the eleven trend columns, and none otherwise |
| FinancialAnalytics.MonthLeTotalPreorder | backend/app/services/financial_service.py:58 | ordering records by their month key is a total preorder |
| FinancialAnalytics.TrendsEmptyIff | backend/app/services/financial_service.py:52-63 | the trend is empty exactly when the name is not a trend column or there are no records |
| FinancialAnalytics.TrendsInMonthOrder | backend/app/services/financial_service.py:55-63 | the trend of a known column is the records rearranged into month-key order, one (month, column value) point each |
| FinancialAnalytics.ColumnNameInjective | backend/app/services/financial_service.py:38-50 | distinct columns have distinct names |
| FinancialAnalytics.BreakdownAbsentIff | backend/app/services/financial_service.py:68-73 | there is no breakdown exactly when no record has the month key |
| FinancialAnalytics.BreakdownOfFirstRecord | backend/app/services/financial_service.py:66-92 | the breakdown describes the first record with the key: the eight expense magnitudes in column order, and salary, transactions and balance as stored |
| FinancialAnalytics.YearOf | backend/app/services/financial_service.py:99 | a record's year is a prefix of its month key |
| FinancialAnalytics.DistinctYearsExact | backend/app/services/financial_service.py:98-100 | the distinct years are without repetition and are exactly the years of the records |
| FinancialAnalytics.YearLeTotalPreorder | backend/app/services/financial_service.py:128 | ordering summaries by year is a total preorder |
| FinancialAnalytics.YearComparison | backend/app/services/financial_service.py:94-128 | the loop appends one summary per distinct year and returns them sorted by year |
| FinancialAnalytics.YearHasRecords | backend/app/services/financial_service.py:106-110 | every distinct year has at least one record, so no year is skipped |
| FinancialAnalytics.SummaryTotals | backend/app/services/financial_service.py:110-126 | a year's summary has non-negative total expenses, net balance equal to income minus expenses, and counts the year's records |
| FinancialAnalytics.YearSummaries | backend/app/services/financial_service.py:104-126 | summary k is the summary of distinct year k |
| FinancialAnalytics.YearComparisonEntries | backend/app/services/financial_service.py:94-128 | the comparison has exactly one summary per distinct year, and nothing else |
| FinancialAnalytics.YearComparisonAscending | backend/app/services/financial_service.py:128 | the years of the comparison strictly ascend |
| FinancialAnalytics.CategoryTotal | backend/app/services/financial_service.py:136-145 | an expense column's all-time total of magnitudes is never negative |
| FinancialAnalytics.AmountGeTotalPreorder | backend/app/services/financial_service.py:148 | ordering by amount, largest first, is a total preorder |
| FinancialAnalytics.SliceEnd | backend/app/services/financial_service.py:152 | the cut point is Python's slice end: the limit capped at the length, or counted from the end when negative |
| FinancialAnalytics.TopCategoriesRanked | backend/app/services/financial_service.py:130-153 | the ranking is a prefix of the eight category totals rearranged in non-increasing order, each the column's all-time magnitude |
| FinancialAnalytics.TopCategoriesCount | backend/app/services/financial_service.py:148-153 | the ranking has min(limit, 8) entries for a non-negative limit |
| DateUtils.LeadingDigits | frontend/src/utils/date-utils.ts:60 | parseInt's decimal scan takes the longest all-digit prefix of the token: the next character, if any, is not a digit |
| DateUtils.LeadingHexDigits | frontend/src/utils/date-utils.ts:60 | parseInt's "0x" scan takes a prefix of the rest of the token |
| DateUtils.DaysInMonth | frontend/src/utils/date-utils.ts:47 | every calendar month has 28 to 31 days |
| DateUtils.LastDayOfMonth | frontend/src/utils/date-utils.ts:47 | new Date(y, m, 0).getDate() is the last day of a month, 28 to 31, for every year and month index, carries included |
| DateUtils.LastDayOfFebruary | frontend/src/utils/date-utils.ts:47 | the end of a custom range in February is day 29 exactly in leap years |
| DateUtils.LastDayInYear | frontend/src/utils/date-utils.ts:47 | for an end month from 1 to 12 the end day is that month's own length |
| DateUtils.LastDayCarries | frontend/src/utils/date-utils.ts:47 | month 13 carries into next January and month 0 back into December, both ending on day 31 |
| DateUtils.AllIsNullRange | frontend/src/utils/date-utils.ts:26-31 | the "all" token selects a range with no start and no end |
| DateUtils.CustomTokenParts | frontend/src/utils/date-utils.ts:32-35 | "custom:a:b" with separator-free a and b splits into exactly the three parts "custom", a, b |
| DateUtils.CustomTokenRange | frontend/src/utils/date-utils.ts:32-57 | such a token selects the custom range of its start and end months |
| DateUtils.CustomTokenWrongParts | frontend/src/utils/date-utils.ts:32-35 | a "custom:" token that does not split into three parts falls through to the empty range |
| DateUtils.CustomRangeEnds | frontend/src/utils/date-utils.ts:40-56 | the start date ends in "-01" and the end date is year-month-last day of the end month |
| DateUtils.TwoDigitText | frontend/src/utils/date-utils.ts:48-51 | padding a two-digit day to two places leaves it unchanged |
| DateUtils.YearMonthOfPrinted | frontend/src/utils/date-utils.ts:40-41 | splitting a printed "YYYY-MM" on "-" and mapping Number gives back the year and the month |
| DateUtils.ToNumberOfDigits | frontend/src/utils/date-utils.ts:40-41 | Number of a non-empty digit string is its decimal value |
| DateUtils.PaddedValue | frontend/src/utils/date-utils.ts:44 | a month padded to two places is a digit string whose value is the month |
| DateUtils.YearTokenRange | frontend/src/utils/date-utils.ts:58-72 | any other token selects January 1 to December 31 of its parsed year when that year is 1900 to 3000, and the empty range otherwise, including when it does not parse |
| DateUtils.PrintedYearParses | frontend/src/utils/date-utils.ts:60 | parseInt of a printed year is that year |
| DateUtils.ParseIntOfDigits | frontend/src/utils/date-utils.ts:60 | parseInt of a non-empty digit string is its decimal value |
| DateUtils.AllDigitsLeading | frontend/src/utils/date-utils.ts:60 | the leading digit run of an all-digit string is the whole string |
| DateUtils.ParseCustomRange | frontend/src/utils/date-utils.ts:185-197 | a result exactly when the value starts with "custom:" and splits into three parts; the result is the second and third parts |
| DateUtils.CustomRangeAgrees | frontend/src/utils/date-utils.ts:32-57 | getDateRangeFromTimeRange reads a custom token's months exactly as parseCustomRange does |
| DateUtils.DateOrders | frontend/src/utils/date-utils.ts:87-92 | the ascending and descending date orders used by the sorts are total preorders, and antisymmetric on calendar fields |
| DateUtils.AvailableYears | frontend/src/utils/date-utils.ts:142-154 | the loop that adds each record's year to a set, then sorts descending, computes the distinct years sorted descending |
| DateUtils.AvailableYearsExact | frontend/src/utils/date-utils.ts:142-154 | the available years are strictly descending and are exactly the years of some record; none without data |
| DateUtils.YearsDescending | frontend/src/utils/date-utils.ts:153 | sorting distinct years with b - a leaves them strictly descending |
| DateUtils.YearsOfRecords | frontend/src/utils/date-utils.ts:147-153 | a year is listed exactly when some record has it |
| DateUtils.MonthRangeBounds | frontend/src/utils/date-utils.ts:159-180 | the range gives the months of an earliest and a latest record date |
| DateUtils.MonthRangeEmpty | frontend/src/utils/date-utils.ts:162-164 | no month range exactly when there are no records |
| DateUtils.LatestIsMaximal | frontend/src/utils/date-utils.ts:79-101 | the latest date is the year and month of a record date no other record date follows |
| DateUtils.LatestIsRangeEnd | frontend/src/utils/date-utils.ts:79-101 | the latest data month is the end month of the available month range |
| DateUtils.LatestEmpty | frontend/src/utils/date-utils.ts:82-84 | no latest date exactly when there are no records |
| FutuPortfolio.ToBoolean | frontend/src/services/futuPortfolioService.ts:76-84 | a boolean is itself, a string is true exactly when its lower-cased spelling is 1, true, yes or on, anything else is false |
| FutuPortfolio.ToNumber | frontend/src/services/futuPortfolioService.ts:145-174 | finite numbers and Longs give their value, non-blank text its Number value when finite, null, undefined, blank or unparsable text and other values the fallback |
| FutuPortfolio.IdString | frontend/src/services/futuPortfolioService.ts:176-196 | null and undefined give "", a string itself |
| FutuPortfolio.LookupMarket | frontend/src/services/futuPortfolioService.ts:94-96 | a market key is found exactly when it is in the market table, with the table's code |
| FutuPortfolio.ParsedMarketsKnown | frontend/src/services/futuPortfolioService.ts:86-98 | every configured market is one of the market table's codes |
| FutuPortfolio.ParseMarketsPieces | frontend/src/services/futuPortfolioService.ts:86-98 | the markets are the codes of the comma-separated pieces whose trimmed, upper-cased key is known, in order |
| FutuPortfolio.ParseMarketsBlank | frontend/src/services/futuPortfolioService.ts:87-89 | a blank or non-string setting configures no markets |
| FutuPortfolio.ResolveEnvValue | frontend/src/services/futuPortfolioService.ts:100-112 | the resolved value is always one of the mapping's values |
| FutuPortfolio.ResolveEnvValueCases | frontend/src/services/futuPortfolioService.ts:100-112 | a known trimmed, upper-cased key gives its own value, anything else the fallback key's value |
| FutuPortfolio.ResolveCurrency | frontend/src/services/futuPortfolioService.ts:198-206 | a number gives its listed currency or USD, non-blank text its trimmed upper-cased spelling, anything else USD |
| FutuPortfolio.CurrencyNotEmpty | frontend/src/services/futuPortfolioService.ts:198-206 | a resolved currency is never empty |
| FutuPortfolio.MarketFromSymbolPrefix | frontend/src/services/futuPortfolioService.ts:208-213 | the market of "M.rest" is M when M has no dot |
| FutuPortfolio.MarketFromSymbolNone | frontend/src/services/futuPortfolioService.ts:208-213 | there is no market exactly when the symbol has no dot |
| FutuPortfolio.ResolveSecMarket | frontend/src/services/futuPortfolioService.ts:215-220 | a listed security market code gives its name, anything else "--" |
| FutuPortfolio.LoadConfig | frontend/src/services/futuPortfolioService.ts:114-137 | the trading environment and category are always values of their tables |
| FutuPortfolio.SelectAccount | frontend/src/services/futuPortfolioService.ts:354-368 | the chosen account is an element of the non-empty account list |
| FutuPortfolio.AccountMarkets | frontend/src/services/futuPortfolioService.ts:377-381 | an account's authorised markets are all positive |
| FutuPortfolio.SelectsConfiguredAccount | frontend/src/services/futuPortfolioService.ts:358-360 | the first account whose id is the configured id is chosen |
| FutuPortfolio.SelectsAccountByEnv | frontend/src/services/futuPortfolioService.ts:362-364 | without a listed configured id, the first account in the configured trading environment is chosen |
| FutuPortfolio.SelectsFirstAccount | frontend/src/services/futuPortfolioService.ts:366-368 | with neither, the first account is chosen |
| FutuPortfolio.AccountOutcomeCases | frontend/src/services/futuPortfolioService.ts:349-373 | a missing or empty account list is the "no account" error, and a chosen account always has a non-empty id |
| FutuPortfolio.PortfolioService.constructor | frontend/src/services/futuPortfolioService.ts:231-242 | a new service has no account and no account markets |
| FutuPortfolio.PortfolioService.EnsureAccount | frontend/src/services/futuPortfolioService.ts:334-386 | a known account is returned unchanged; otherwise the account list's outcome sets the account id and markets, or its error leaves them unchanged |
| FutuPortfolio.TargetMarketsFallbacks | frontend/src/services/futuPortfolioService.ts:670-689 | without shared markets the account's markets win, then the configured ones, then US; the result is never empty |
| FutuPortfolio.TargetMarketsIntersect | frontend/src/services/futuPortfolioService.ts:671-678 | with shared markets the result is exactly the shared ones, in the account's order |
| FutuPortfolio.Ratio | frontend/src/services/futuPortfolioService.ts:491-496 | a ratio is 0 without cost, and otherwise the value as a percentage of the cost |
| FutuPortfolio.OverviewTotals | frontend/src/services/futuPortfolioService.ts:475-512 | the overview's totals add up the positions in any order, and both ratios are percentages of the total cost, 0 without cost |
| FutuPortfolio.OverviewOfNoPositions | frontend/src/services/futuPortfolioService.ts:475-512 | with no positions the market value and both ratios are 0 |
| FutuPortfolio.ComputeEquity | frontend/src/services/futuPortfolioService.ts:581-587 | the equity is the cash total assets when positive, else market value plus available cash |
| FutuPortfolio.UpdateEquityCurve | frontend/src/services/futuPortfolioService.ts:617-668 | the filter, sort and dedup loop computes the curve of the recent stored points and the new entry; outside a browser there is no curve |
| FutuPortfolio.Collapse | frontend/src/services/futuPortfolioService.ts:646-656 | collapsing runs never lengthens the sequence and empties only an empty one |
| FutuPortfolio.KeptPositions | frontend/src/services/futuPortfolioService.ts:646-656 | the kept positions lie in the input and include its last element |
| FutuPortfolio.KeptSelect | frontend/src/services/futuPortfolioService.ts:646-656 | the collapsed sequence is the input at the kept positions |
| FutuPortfolio.KeptPositionsIncrease | frontend/src/services/futuPortfolioService.ts:646-656 | the kept positions are strictly increasing |
| FutuPortfolio.KeptAreRunEnds | frontend/src/services/futuPortfolioService.ts:646-656 | a kept position ends its run of equal timestamps: on a tie the later point wins |
| FutuPortfolio.RunEndsAreKept | frontend/src/services/futuPortfolioService.ts:646-656 | every run end is kept, so no timestamp is lost |
| FutuPortfolio.CollapseNeighboursDiffer | frontend/src/services/futuPortfolioService.ts:646-656 | neighbours after collapsing never share a timestamp |
| FutuPortfolio.CollapseFrom | frontend/src/services/futuPortfolioService.ts:646-656 | collapsing keeps only points of the input |
| FutuPortfolio.CollapseSorted | frontend/src/services/futuPortfolioService.ts:646-656 | collapsing keeps a sorted sequence sorted |
| FutuPortfolio.EquityCurveOrdered | frontend/src/services/futuPortfolioService.ts:639-656 | the curve ascends in time and no two neighbours share a timestamp |
| FutuPortfolio.EquityCurveLastOfRuns | frontend/src/services/futuPortfolioService.ts:639-656 | the curve is the sorted points' run ends, one per run, in order |
| FutuPortfolio.EquityCurveWindow | frontend/src/services/futuPortfolioService.ts:628-637 | every curve point is the new entry or a stored point at most thirty days old |
| FutuPortfolio.EquityCurveKeepsEntry | frontend/src/services/futuPortfolioService.ts:633-656 | when distinct times print differently, the new entry is on the curve |
| ImportReview.ColumnListed | frontend/src/pages/TransactionImportReview.tsx:66-112 | every column of a draft row is one of the table's eight columns |
| ImportReview.AlwaysEditableColumns | frontend/src/pages/TransactionImportReview.tsx:66-112 | exactly the category and remarks columns are always editable |
| ImportReview.EmptyDraftRow | frontend/src/context/ImportReviewContext.tsx:80-84 | a fresh draft row has every column empty, is marked new and has no unlocked cells |
| ImportReview.StorageToInput | frontend/src/pages/TransactionImportReview.tsx:26-34 | empty stays empty, a value with "T" is unchanged, and the length never changes |
| ImportReview.InputToStorage | frontend/src/pages/TransactionImportReview.tsx:36-41 | the length never changes and a value without "T" is unchanged |
| ImportReview.StorageRoundTrip | frontend/src/pages/TransactionImportReview.tsx:26-41 | a stored time without "T" comes back unchanged from the time input |
| ImportReview.ReplaceFirstBack | frontend/src/pages/TransactionImportReview.tsx:33-40 | turning the first blank into "T" and then the first "T" into a blank restores a "T"-free text |
| ImportReview.InputRoundTrip | frontend/src/pages/TransactionImportReview.tsx:26-41 | an input value date"T"time, with no blank or "T" in the date and no "T" in the time, survives the trip through storage |
| ImportReview.ReplaceAt | frontend/src/pages/TransactionImportReview.tsx:33-40 | replacing the first occurrence of a character replaces exactly the one after a prefix without it |
| ImportReview.CellValue | frontend/src/pages/TransactionImportReview.tsx:314-316 | a cell shows its string, or "" when it holds none |
| ImportReview.NonEmptyRowsExact | frontend/src/pages/TransactionImportReview.tsx:136-145 | exactly the rows with some non-blank string column are kept, in order, and the filter distributes over concatenation |
| ImportReview.EmptyDraftRowHasNoContent | frontend/src/pages/TransactionImportReview.tsx:180-182 | a fresh draft row has no content and every cell of it is editable |
| ImportReview.ChangedRowEffect | frontend/src/pages/TransactionImportReview.tsx:152-177 | only the edited cell changes; it is unlocked exactly when an old row's locked cell held blank text; earlier unlocks stay |
| ImportReview.EditableStaysEditable | frontend/src/pages/TransactionImportReview.tsx:319-326 | a string cell that could be edited stays editable after any edit, and other cells keep their editability |
| ImportReview.FilledCellsLocked | frontend/src/pages/TransactionImportReview.tsx:319-326 | an old row's filled, locked cell in a column that is not always editable is read-only |
| ImportReview.DeleteRowAt | frontend/src/pages/TransactionImportReview.tsx:184-186 | deleting an index removes exactly that row and keeps the others in order; an index outside the rows removes nothing |
| ImportReview.SubmitPayload | frontend/src/pages/TransactionImportReview.tsx:194-197 | the submission fails exactly when no row has content, with the "nothing to submit" message |
| ImportReview.SubmitPayloadRecords | frontend/src/pages/TransactionImportReview.tsx:199-211 | the payload carries the deduplication switch and, in order, record j equal to the cell values of the j-th row with content, each with some non-blank column |
| ImportReview.UseImportReview | frontend/src/context/ImportReviewContext.tsx:72-78 | inside a provider the hook gives its context; outside it fails with the provider message |
| ImportReview.ReviewState.constructor | frontend/src/context/ImportReviewContext.tsx:44-46 | the provider starts with no rows, deduplication on and no source file |
| ImportReview.ReviewState.Reset | frontend/src/context/ImportReviewContext.tsx:56-60 | reset restores the initial state |
| ImportReview.ReviewState.CellChange | frontend/src/pages/TransactionImportReview.tsx:147-178 | the edited row becomes its changed row, every other row and the other state stay the same |
| ImportReview.ReviewState.AddRow | frontend/src/pages/TransactionImportReview.tsx:180-182 | a fresh draft row goes in front of the unchanged rows |
| ImportReview.ReviewState.DeleteRow | frontend/src/pages/TransactionImportReview.tsx:184-186 | the rows become the rows with the index deleted; the other state stays the same |
| ImportReview.AddRowKeepsSubmission | frontend/src/pages/TransactionImportReview.tsx:180-211 | adding a row does not change what a submission sends |
| BalanceSheet.CalculateFinancialRatios | frontend/src/pages/BalanceSheet.tsx:65-74 | while either list is not loaded every ratio and total is 0 |
| BalanceSheet.Ratios | frontend/src/pages/BalanceSheet.tsx:76-103 | total assets and liabilities are the sums of their current and non-current parts, net worth their difference, the current ratio current assets over current liabilities when those are positive and 0 otherwise, the debt-to-equity ratio liabilities over net worth when that is positive and 0 otherwise |
| BalanceSheet.Quotient | frontend/src/pages/BalanceSheet.tsx:93-95 | the quotient times the divisor is the dividend, and it is not negative for a non-negative dividend and positive divisor |
| BalanceSheet.CategoryTotalMasked | frontend/src/pages/BalanceSheet.tsx:76-89 | a category's total is the sum over all items counting only that category's values |
| BalanceSheet.RatiosIgnoreOrder | frontend/src/pages/BalanceSheet.tsx:65-104 | the ratios do not depend on the order of the assets or the liabilities |
| BalanceSheet.TotalsCoverItems | frontend/src/pages/BalanceSheet.tsx:76-82 | when each asset is current or non-current, the total assets are the sum of all asset values |
| BalanceSheet.SplitSum | frontend/src/pages/BalanceSheet.tsx:76-82 | current plus non-current values sum to all values when every item is in one of the two categories |
| BalanceSheet.TotalsNonNegative | frontend/src/pages/BalanceSheet.tsx:65-104 | with no negative values no total and no ratio is negative |

## Left out

- Library behaviour is passed in as parameters: `pd.read_csv`, `pd.read_excel`, `csv.DictReader`, `pd.to_datetime`, `float()`, `pd.to_numeric`, `str.splitlines`, GBK and UTF-8 decoding, and the MD5 file signature. Only the code's use of their results is modelled.
- The database layer (sessions, SQL, commits) is replaced by the `Store.Database` object's two sequences. A query result is the matching subsequence. `LIKE 'x%'` is a plain prefix test, without wildcards or SQLite's case folding. `DISTINCT` keeps the first occurrence.
- Exceptions raised by the store or a library are explicit `Option<string>` inputs (`commitFailure`, `deleteFailure`, `aggFailure`, the export's `failure`) or a `Raised` result of the CSV reader. A failure takes its rollback or re-raise path with the source's message.
- `created_at` and `updated_at` timestamps, logging and `print` output are not modelled.
- The column length limits of the tables (`String(15)` and so on) are not modelled. SQLite does not enforce them either.
- Common.IsSpace: whitespace is the six ASCII characters (space, tab, line feed, vertical tab, form feed, carriage return) that Python's `str.strip` and `\s` and JavaScript's `trim` all remove. Python also removes U+001C to U+001F, and both languages remove further Unicode spaces such as U+00A0 and U+3000; a value made only of those is blank in the source and not in the model.
- The case and digit rules are ASCII only. Python's `lower` and `isdigit` also accept other Unicode characters.
- Floating point is modelled as `real`: no rounding, no NaN and no infinities. JavaScript `Number()` is modelled only for what the code needs: digit strings in date-utils, and the `Numbers` parameter in the Futu service.
- A duplicate column name in a frame is resolved to its first occurrence.
- `pandas` regular expressions in `str.contains` are used only with literal keywords, so they are a substring test here.
- The frame-wide column operations of pandas (masking, `dropna`, `apply`) are modelled row by row. The result is the same table, but the intermediate frames are not modelled.
- BillParser.ScanBlock: the Alipay and WeChat text loops keep a `within_table` flag. The model first finds the opening line with `FindFirst`, then scans with a loop that stops at the closing line. The lines kept are the same.
- BillParser.ParseStandard: an escaping exception is the reader's `Err` text, like a `BillParserError`. The model does not tell the two exception types apart.
- BillParser.DetectFormat: the amount-header test before the final fallback returns "standard", as the fallback does. The model therefore folds it into the fallback. A spreadsheet name with an Alipay keyword is decided by the name before the ZIP signature is looked at. This follows the code, which checks the extension first.
- Aggregation's year and month are plain integers. Dates before year 1000, which `strftime` pads, are not modelled.
- `str()` of a non-text cell is modelled only for missing cells ("nan"). Numbers are already text in the modelled frames.
- FinancialAnalytics works on the `Store.MonthlyAggregate` rows. `FinancialRecord` and `Summary`, which the module imports, are not defined in the models file.
- Database plumbing in the services is not modelled: `get_all_records`, `get_records_by_year`, `get_records_by_date_range`, `get_summary`, `get_balance_trend`, `get_aggregation_stats`, `get_csv_template` and `import_from_dataframe`. They are query wrappers and a fixed template without rules of their own.
- The missing-columns message lists the columns in canonical order. The source builds it from a Python `set`, whose order is not specified.
- Aggregation: the code computes `avg_consumption` and `recent_avg_consumption` in the same pass as the category totals, and the model follows the code. `gifts` is part of `avg_consumption`, as in the code.
- TransactionImport.ExportToCsv: the export's dates are given already parsed as `Date` values. The start bound is compared in the source as the raw `YYYY-MM-DD` string against the stored time; the model compares with midnight of that date, which agrees for well-formed dates. A malformed end date makes `strptime` raise, which is the `failure` input; a malformed start date is not modelled. The CSV text and the output file are the rows; `to_csv` quoting and the byte-order mark are not modelled.
- Aggregation.MonthData: a month's data is computed from one sequence of visible aggregate rows, used both for the housing query and for the two prior-month lookups. In the source these are three separate queries of one session and could see different rows if the table changed between them.
- TransactionImport: the importer's session has `autoflush=False`. Duplicate lookups therefore see only the rows stored before the batch. The refresh that follows a successful import deletes every aggregate row and then rebuilds. The rebuild sees no aggregate rows, so the housing average is 0 and the recent average equals the current one.
- DateUtils: `parseDate` and JavaScript `Date` validity are replaced by a (year, month, day) datatype. `formatDateRangeText` is translated display text and is not modelled.
- DateUtils.ToNumber: `Number()` of a spelling other than digits and surrounding blanks is NaN here. JavaScript also accepts signs, decimals and exponents.
- FutuPortfolio: the websocket session is not modelled: connection, login, `send`, trade unlock, the `beforeunload` listener, and `localStorage` loading and saving. The stored history is a parameter and `isBrowser()` is a boolean.
- FutuPortfolio: `normalizePosition`, `normalizeFunds`, `fetchCash` and `fetchPositions` are not modelled: these map OpenD response fields one to one. Their results are the `Position` and `Cash` inputs of the overview.
- FutuPortfolio.UpdateEquityCurve: the update time of the new entry is given in milliseconds. Clock parsing and `toISOString` are the `Clock` parameter. The stored history is given as already loaded points, so `loadEquityHistory` is not modelled.
- FutuPortfolio.AccountOutcome: every entry of the account list is an object.
- ImportReview.ReviewState.CellChange: requires `rowIndex` to be a row. The page only calls it for rendered rows.
- ImportReview: the API call of a submission, and the navigation away from an empty review, are not modelled.
- BalanceSheet: an item's category is a free string, as in the page. The page ignores categories other than "current" and "non-current", and so does the model.

## Findings

| source | as written | input that shows it | evidently intended | confidence | as-written member | corrected member |
|---|---|---|---|---|---|---|
| backend/app/services/transaction_import_export_service.py:92-95 | the end date of an export is extended to `23:59:59` and compared with `<`, so the last second of the end day is excluded | a transaction at 23:59:59 on the end date is not exported | the whole end day is included (`<=`, or `<` the next midnight) | not executed | TransactionImport.ExportMissesLastSecond | TransactionImport.ExportToCsvCorrected |
