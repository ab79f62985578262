// The frontend's date helpers: the date range a time-range token selects, the
// custom-range token, and the years, month span and latest month present in
// the monthly records. A record's date is given as its calendar fields.

module DateUtils {
  import opened Common

  /** The calendar fields of a record's month_date, as parseDate reads them. */
  datatype MonthDate = MonthDate(year: int, month: int, day: int)

  /** A range with optional ends; null ends mean "all data". */
  datatype DateRange = DateRange(startDate: Option<string>, endDate: Option<string>)

  const NullRange: DateRange := DateRange(None, None)

  // --------------------------------------------------------- number parsing

  /** The values the custom-range template prints: an integer, NaN, or a destructured
      element that was not there. */
  datatype JsNumber = Int(value: int) | NaN | Undefined

  /** `${n}` and String(n). */
  function NumberText(n: JsNumber): string {
    match n
    case Int(v) => IntToString(v)
    case NaN => "NaN"
    case Undefined => "undefined"
  }

  predicate AllDigits(s: string) {
    forall i :: 0 <= i < |s| ==> IsDigit(s[i])
  }

  /** Number(s) on integer spellings: surrounding whitespace ignored, the empty string is 0,
      decimal digits are their value; every other spelling is NaN here. */
  function ToNumber(s: string): JsNumber {
    var t := Trim(s);
    if t == "" then Int(0) else if AllDigits(t) then Int(DigitsValue(t)) else NaN
  }

  /** `const [y, m] = text.split("-").map(Number)`. */
  function YearMonthOf(text: string): (JsNumber, JsNumber) {
    var pieces := Split(text, '-');
    (ToNumber(pieces[0]), if |pieces| >= 2 then ToNumber(pieces[1]) else Undefined)
  }

  /** The longest run of digits at the front of s. */
  function LeadingDigits(s: string): (r: string)
    ensures AllDigits(r) && StartsWith(s, r)
    ensures |r| < |s| ==> !IsDigit(s[|r|])
  {
    if s != [] && IsDigit(s[0]) then [s[0]] + LeadingDigits(s[1..]) else []
  }

  function HexDigitValue(c: char): int {
    if '0' <= c <= '9' then c as int - '0' as int
    else if 'a' <= c <= 'f' then c as int - 'a' as int + 10
    else if 'A' <= c <= 'F' then c as int - 'A' as int + 10
    else -1
  }

  /** The longest run of hexadecimal digits at the front of s. */
  function LeadingHexDigits(s: string): (r: string)
    ensures |r| <= |s|
  {
    if s != [] && HexDigitValue(s[0]) >= 0 then [s[0]] + LeadingHexDigits(s[1..]) else []
  }

  function HexValue(s: string): int {
    if s == [] then 0 else HexValue(s[..|s| - 1]) * 16 + HexDigitValue(s[|s| - 1])
  }

  /** parseInt(s) without a radix: leading whitespace, an optional sign, then a "0x" hexadecimal
      run or the longest decimal run; None (NaN) when there are no digits. */
  function ParseInt(s: string): Option<int> {
    var t := TrimStart(s);
    var negative := t != [] && t[0] == '-';
    var rest := if t != [] && (t[0] == '-' || t[0] == '+') then t[1..] else t;
    var sign := if negative then -1 else 1;
    if StartsWith(rest, "0x") || StartsWith(rest, "0X") then
      var hex := LeadingHexDigits(rest[2..]);
      if hex == [] then None else Some(sign * HexValue(hex))
    else
      var digits := LeadingDigits(rest);
      if digits == [] then None else Some(sign * DigitsValue(digits))
  }

  // ------------------------------------------------------------ calendar

  predicate IsLeapYear(y: int) {
    (y % 4 == 0 && y % 100 != 0) || y % 400 == 0
  }

  function DaysInMonth(y: int, m: int): (d: int)
    requires 1 <= m <= 12
    ensures 28 <= d <= 31
  {
    if m == 2 then (if IsLeapYear(y) then 29 else 28)
    else if m == 4 || m == 6 || m == 9 || m == 11 then 30
    else 31
  }

  /** new Date(year, month, 0).getDate(): day 0 of the 0-based month index `month` is the last
      day of the 1-based month `month`, after carrying months over into years; the Date
      constructor reads the years 0 to 99 as 1900 to 1999. */
  function LastDayOfMonth(year: int, month: int): (d: int)
    ensures 28 <= d <= 31
  {
    var y := if 0 <= year <= 99 then year + 1900 else year;
    var index := month - 1;
    DaysInMonth(y + index / 12, index % 12 + 1)
  }

  /** February has 29 days exactly in leap years; the other months have their fixed lengths. */
  lemma LastDayOfFebruary(year: int)
    requires year < 0 || year > 99
    ensures LastDayOfMonth(year, 2) == 29 <==> IsLeapYear(year)
  {
  }

  /** A month within 1 to 12 ends on its own last day, without carry. */
  lemma LastDayInYear(year: int, month: int)
    requires 1 <= month <= 12 && (year < 0 || year > 99)
    ensures LastDayOfMonth(year, month) == DaysInMonth(year, month)
  {
    assert (month - 1) / 12 == 0 && (month - 1) % 12 == month - 1;
  }

  /** Month 13 carries into January of the next year, month 0 back into December. */
  lemma LastDayCarries(year: int)
    requires year < -1 || year > 100
    ensures LastDayOfMonth(year, 13) == 31 && LastDayOfMonth(year, 0) == 31
  {
  }

  // ----------------------------------------------------------- date ranges

  /** The range of a "custom:<start>:<end>" token. */
  function CustomRange(startMonth: string, endMonth: string): DateRange {
    var (startYear, startMon) := YearMonthOf(startMonth);
    var (endYear, endMon) := YearMonthOf(endMonth);
    var day := if endYear.Int? && endMon.Int? then PadStart2(IntToString(LastDayOfMonth(endYear.value, endMon.value))) else "NaN";
    DateRange(
      Some(NumberText(startYear) + "-" + PadStart2(NumberText(startMon)) + "-01"),
      Some(NumberText(endYear) + "-" + PadStart2(NumberText(endMon)) + "-" + day))
  }

  const CustomPrefix: string := "custom:"

  /** getDateRangeFromTimeRange. */
  function DateRangeFromTimeRange(timeRange: string): DateRange {
    if timeRange == "all" then NullRange
    else if StartsWith(timeRange, CustomPrefix) then
      var parts := Split(timeRange, ':');
      if |parts| == 3 then CustomRange(parts[1], parts[2]) else NullRange
    else
      match ParseInt(timeRange)
      case Some(year) =>
        if 1900 <= year <= 3000 then DateRange(Some(IntToString(year) + "-01-01"), Some(IntToString(year) + "-12-31"))
        else NullRange
      case None => NullRange
  }

  lemma AllIsNullRange()
    ensures DateRangeFromTimeRange("all") == NullRange
  {
  }

  /** A separator-free start and end, between colons after the prefix, make a custom range. */
  lemma CustomTokenParts(a: string, b: string)
    requires ':' !in a && ':' !in b
    ensures Split(CustomPrefix + a + ":" + b, ':') == ["custom", a, b]
  {
    assert "custom" + [':'] + (a + ":" + b) == CustomPrefix + a + ":" + b;
    SplitAfterPiece("custom", ':', a + ":" + b);
    assert a + [':'] + b == a + ":" + b;
    SplitAfterPiece(a, ':', b);
    SplitPiece(b, ':');
  }

  /** A custom token with separator-free parts selects their custom range. */
  lemma CustomTokenRange(a: string, b: string)
    requires ':' !in a && ':' !in b
    ensures DateRangeFromTimeRange(CustomPrefix + a + ":" + b) == CustomRange(a, b)
  {
    var t := CustomPrefix + a + ":" + b;
    CustomTokenParts(a, b);
    assert t[..7] == CustomPrefix;
    assert t != "all" by {
      assert t[0] == 'c';
    }
  }

  /** A custom token splitting into any other number of parts selects no range at all. */
  lemma CustomTokenWrongParts(timeRange: string)
    requires StartsWith(timeRange, CustomPrefix) && |Split(timeRange, ':')| != 3
    ensures DateRangeFromTimeRange(timeRange) == NullRange
  {
    assert timeRange != "all" by {
      assert timeRange[0] == 'c';
    }
  }

  /** For an end month between 1 and 12 the end date is its last day: leap years give
      February 29 days. The start date is the first of the start month. */
  lemma CustomRangeEnds(startMonth: string, endMonth: string, ey: int, em: int)
    requires YearMonthOf(endMonth) == (Int(ey), Int(em)) && 1 <= em <= 12 && (ey < 0 || ey > 99)
    ensures var r := CustomRange(startMonth, endMonth);
      && r.startDate.Some? && EndsWith(r.startDate.value, "-01")
      && r.endDate == Some(IntToString(ey) + "-" + PadStart2(IntToString(em)) + "-" + IntToString(DaysInMonth(ey, em)))
  {
    LastDayInYear(ey, em);
    var d := DaysInMonth(ey, em);
    TwoDigitText(d);
    var r := CustomRange(startMonth, endMonth);
    var (sy, sm) := YearMonthOf(startMonth);
    var start := NumberText(sy) + "-" + PadStart2(NumberText(sm)) + "-01";
    assert r.startDate == Some(start);
    assert start[|start| - 3..] == "-01";
    assert r.endDate == Some(IntToString(ey) + "-" + PadStart2(IntToString(em)) + "-" + PadStart2(IntToString(d)));
  }

  /** A two-digit number prints as itself when padded to two places. */
  lemma TwoDigitText(d: int)
    requires 10 <= d <= 99
    ensures PadStart2(IntToString(d)) == IntToString(d)
  {
    assert IntToString(d) == NatToString(d);
    assert NatToString(d) == NatToString(d / 10) + [DigitChar(d % 10)];
  }

  /** Reading a printed year and month back gives their values. */
  lemma YearMonthOfPrinted(y: nat, m: nat)
    ensures YearMonthOf(NatToString(y) + "-" + PadStart2(NatToString(m))) == (Int(y), Int(m))
  {
    var ys := NatToString(y);
    var ms := PadStart2(NatToString(m));
    assert '-' !in ys;
    assert '-' !in ms;
    assert ys + "-" + ms == ys + ['-'] + ms;
    SplitAfterPiece(ys, '-', ms);
    SplitPiece(ms, '-');
    ToNumberOfDigits(ys);
    NatToStringValue(y);
    PaddedValue(m);
    ToNumberOfDigits(ms);
  }

  lemma ToNumberOfDigits(s: string)
    requires s != [] && AllDigits(s)
    ensures ToNumber(s) == Int(DigitsValue(s))
  {
    TrimOfTrimmed(s);
  }

  lemma PaddedValue(m: nat)
    ensures AllDigits(PadStart2(NatToString(m))) && PadStart2(NatToString(m)) != []
    ensures DigitsValue(PadStart2(NatToString(m))) == m
  {
    NatToStringValue(m);
    var s := NatToString(m);
    if |s| == 1 {
      assert ("0" + s)[..1] == "0";
    }
  }

  /** A token whose leading integer is a year from 1900 to 3000 selects that whole year;
      any other token that is neither "all" nor custom selects no range. */
  lemma YearTokenRange(timeRange: string)
    requires timeRange != "all" && !StartsWith(timeRange, CustomPrefix)
    ensures match ParseInt(timeRange)
      case Some(y) =>
        DateRangeFromTimeRange(timeRange) ==
          if 1900 <= y <= 3000 then DateRange(Some(IntToString(y) + "-01-01"), Some(IntToString(y) + "-12-31")) else NullRange
      case None => DateRangeFromTimeRange(timeRange) == NullRange
  {
  }

  /** A printed year parses back to itself, so "2024" selects 2024-01-01 to 2024-12-31. */
  lemma PrintedYearParses(y: nat)
    ensures ParseInt(NatToString(y)) == Some(y)
  {
    ParseIntOfDigits(NatToString(y));
    NatToStringValue(y);
  }

  /** A string of decimal digits parses as its value. */
  lemma ParseIntOfDigits(s: string)
    requires s != [] && AllDigits(s)
    ensures ParseInt(s) == Some(DigitsValue(s))
  {
    assert TrimStart(s) == s;
    assert s[0] != '-' && s[0] != '+';
    assert !StartsWith(s, "0x") && !StartsWith(s, "0X") by {
      if |s| >= 2 {
        assert IsDigit(s[1]);
      }
    }
    AllDigitsLeading(s);
  }

  lemma {:induction false} AllDigitsLeading(s: string)
    requires AllDigits(s)
    ensures LeadingDigits(s) == s
  {
    if s != [] {
      AllDigitsLeading(s[1..]);
      assert [s[0]] + s[1..] == s;
    }
  }

  /** parseCustomRange: the two parts of a "custom:" value splitting into exactly three parts. */
  function ParseCustomRange(value: string): (r: Option<(string, string)>)
    ensures r.Some? <==> StartsWith(value, CustomPrefix) && |Split(value, ':')| == 3
    ensures r.Some? ==> r.value == (Split(value, ':')[1], Split(value, ':')[2])
  {
    if !StartsWith(value, CustomPrefix) then None
    else
      var parts := Split(value, ':');
      if |parts| != 3 then None else Some((parts[1], parts[2]))
  }

  /** A custom range token names the same months to both helpers. */
  lemma CustomRangeAgrees(value: string)
    requires value != "all" && ParseCustomRange(value).Some?
    ensures DateRangeFromTimeRange(value) == CustomRange(ParseCustomRange(value).value.0, ParseCustomRange(value).value.1)
  {
  }

  // --------------------------------------------------------- record dates

  /** Chronological order of calendar fields (getTime order for valid dates). */
  predicate DateLe(a: MonthDate, b: MonthDate) {
    a.year < b.year || (a.year == b.year && (a.month < b.month || (a.month == b.month && a.day <= b.day)))
  }

  predicate DateGe(a: MonthDate, b: MonthDate) {
    DateLe(b, a)
  }

  lemma DateOrders()
    ensures TotalPreorder(DateLe) && TotalPreorder(DateGe)
    ensures forall a, b :: DateLe(a, b) && DateLe(b, a) ==> a == b
  {
  }

  predicate YearGe(a: int, b: int) {
    a >= b
  }

  function YearOf(d: MonthDate): int {
    d.year
  }

  /** getAvailableYears as a value: the distinct years, sorted descending. */
  function AvailableYearsSpec(data: Option<seq<MonthDate>>): seq<int> {
    if data.None? || |data.value| == 0 then []
    else SortBy(Dedup(Map(data.value, YearOf)), YearGe)
  }

  /** getAvailableYears: the years are added to a set record by record, then sorted. */
  method AvailableYears(data: Option<seq<MonthDate>>) returns (years: seq<int>)
    ensures years == AvailableYearsSpec(data)
  {
    if data.None? || |data.value| == 0 {
      return [];
    }
    var records := data.value;
    ghost var all := Map(records, YearOf);
    var seen: set<int> := {};
    var order: seq<int> := [];  // a Set iterates in insertion order
    for i := 0 to |records|
      invariant order == Dedup(all[..i])
      invariant forall y :: y in seen <==> y in order
    {
      assert all[..i + 1][..i] == all[..i];
      var year := records[i].year;
      if year !in seen {
        seen := seen + {year};
        order := order + [year];
      }
    }
    assert all[..|records|] == all;
    years := SortBy(order, YearGe);
  }

  /** The available years are strictly descending and are exactly the years of the records. */
  lemma AvailableYearsExact(data: Option<seq<MonthDate>>)
    ensures Descending(AvailableYearsSpec(data))
    ensures forall y :: y in AvailableYearsSpec(data) <==>
      data.Some? && exists i :: 0 <= i < |data.value| && data.value[i].year == y
  {
    if data.Some? && |data.value| > 0 {
      var order := Dedup(Map(data.value, YearOf));
      DedupExact(Map(data.value, YearOf));
      YearsDescending(order);
      YearsOfRecords(data.value);
    }
  }

  predicate Descending(r: seq<int>) {
    forall i, j :: 0 <= i < j < |r| ==> r[i] > r[j]
  }

  /** Sorting distinct years by YearGe leaves them strictly descending. */
  lemma YearsDescending(order: seq<int>)
    requires Distinct(order)
    ensures Descending(SortBy(order, YearGe))
  {
    var r := SortBy(order, YearGe);
    DistinctPermutation(order, r);
    SortBySorted(order, YearGe);
    forall i, j | 0 <= i < j < |r| ensures r[i] > r[j] {
      assert YearGe(r[i], r[j]) && r[i] != r[j];
    }
  }

  /** The sorted distinct years are the years of the records. */
  lemma YearsOfRecords(records: seq<MonthDate>)
    ensures forall y :: y in SortBy(Dedup(Map(records, YearOf)), YearGe) <==>
      exists i :: 0 <= i < |records| && records[i].year == y
  {
    var all := Map(records, YearOf);
    var order := Dedup(all);
    var r := SortBy(order, YearGe);
    DedupExact(all);
    forall y ensures y in r <==> exists i :: 0 <= i < |records| && records[i].year == y {
      assert y in r <==> y in multiset(order);
      if y in all {
        var i :| 0 <= i < |all| && all[i] == y;
      }
    }
  }

  /** The month of a date as "YYYY-MM" (`${year}-${String(month).padStart(2, "0")}`). */
  function MonthText(d: MonthDate): string {
    IntToString(d.year) + "-" + PadStart2(IntToString(d.month))
  }

  /** getAvailableMonthRange: the records' dates sorted ascending, first and last month. */
  function AvailableMonthRange(data: Option<seq<MonthDate>>): Option<(string, string)> {
    if data.None? || |data.value| == 0 then None
    else
      var dates := SortBy(data.value, DateLe);
      Some((MonthText(dates[0]), MonthText(dates[|dates| - 1])))
  }

  /** The month range gives the months of an earliest and a latest record date. */
  lemma MonthRangeBounds(data: Option<seq<MonthDate>>) returns (lo: MonthDate, hi: MonthDate)
    requires data.Some? && |data.value| > 0
    ensures AvailableMonthRange(data) == Some((MonthText(lo), MonthText(hi)))
    ensures lo in data.value && hi in data.value && DateLe(lo, hi)
    ensures forall d :: d in data.value ==> DateLe(lo, d) && DateLe(d, hi)
  {
    var dates := SortBy(data.value, DateLe);
    DateOrders();
    SortBySorted(data.value, DateLe);
    lo, hi := dates[0], dates[|dates| - 1];
    assert lo in multiset(data.value) && hi in multiset(data.value);
    forall d | d in data.value ensures DateLe(lo, d) && DateLe(d, hi) {
      assert d in multiset(dates);
    }
  }

  lemma MonthRangeEmpty(data: Option<seq<MonthDate>>)
    ensures AvailableMonthRange(data).None? <==> data.None? || data.value == []
  {
  }

  /** getLatestDataDate: the records' dates sorted descending, the year and month of the first. */
  function LatestDataDate(data: Option<seq<MonthDate>>): Option<(int, int)> {
    if data.None? || |data.value| == 0 then None
    else
      var dates := SortBy(data.value, DateGe);
      Some((dates[0].year, dates[0].month))
  }

  /** The latest date is a latest record date. */
  lemma LatestIsMaximal(data: Option<seq<MonthDate>>) returns (latest: MonthDate)
    requires data.Some? && |data.value| > 0
    ensures LatestDataDate(data) == Some((latest.year, latest.month))
    ensures latest in data.value && forall d :: d in data.value ==> DateLe(d, latest)
  {
    var dates := SortBy(data.value, DateGe);
    DateOrders();
    SortBySorted(data.value, DateGe);
    latest := dates[0];
    assert latest in multiset(data.value);
    forall d | d in data.value ensures DateLe(d, latest) {
      assert d in multiset(dates);
    }
  }

  /** The latest month and the end of the month range are the same month. */
  lemma LatestIsRangeEnd(data: Option<seq<MonthDate>>)
    requires data.Some? && |data.value| > 0
    ensures var latest := LatestDataDate(data).value;
      AvailableMonthRange(data).value.1 == MonthText(MonthDate(latest.0, latest.1, 0))
  {
    var latest := LatestIsMaximal(data);
    var lo, hi := MonthRangeBounds(data);
    DateOrders();
    assert latest == hi;
  }

  lemma LatestEmpty(data: Option<seq<MonthDate>>)
    ensures LatestDataDate(data).None? <==> data.None? || data.value == []
  {
  }
}
