// The Futu portfolio service's pure rules: reading configuration values,
// currency and market names, choosing the trading account, the markets to
// query, the overview totals, the equity figure and the 30-day equity curve.
// The websocket session itself is outside the model; the account list and the
// stored equity history arrive as parameters.

module FutuPortfolio {
  import opened Common

  /** An untyped JavaScript value as the environment and the OpenD responses deliver it. */
  datatype JsValue =
    | JsUndefined
    | JsNull
    | JsBool(b: bool)
    | JsString(s: string)
    | JsNumber(n: real)   // a finite number
    | JsLong(i: int)      // a protobuf Long, with toNumber() and toString()
    | JsObject            // any other object

  /** Number(s) on non-blank text and the text of a number, left to the JavaScript engine. */
  datatype Numbers = Numbers(parse: string -> Option<real>, text: real -> string)

  // ------------------------------------------------------------ conversions

  const TrueSpellings: seq<string> := ["1", "true", "yes", "on"]

  /** toBoolean: booleans as they are, strings by their lower-cased spelling, anything else false. */
  function ToBoolean(value: JsValue): (r: bool)
    ensures value.JsBool? ==> r == value.b
    ensures value.JsString? ==> (r <==> Lower(value.s) in TrueSpellings)
    ensures !value.JsBool? && !value.JsString? ==> !r
  {
    match value
    case JsBool(b) => b
    case JsString(s) => Lower(s) in TrueSpellings
    case _ => false
  }

  /** toNumber(value, fallback): numbers as they are, a Long through toNumber(), non-blank text
      through Number() when that is finite, the fallback for everything else. */
  function ToNumber(value: JsValue, fallback: real, nums: Numbers): (r: real)
    ensures value.JsNumber? ==> r == value.n
    ensures value.JsLong? ==> r == value.i as real
    ensures value.JsString? && !IsBlank(value.s) && nums.parse(value.s).Some? ==> r == nums.parse(value.s).value
    ensures value.JsString? && (IsBlank(value.s) || nums.parse(value.s).None?) ==> r == fallback
    ensures value.JsUndefined? || value.JsNull? || value.JsBool? || value.JsObject? ==> r == fallback
  {
    match value
    case JsNumber(n) => n
    case JsString(s) => if !IsBlank(s) && nums.parse(s).Some? then nums.parse(s).value else fallback
    case JsLong(i) => i as real
    case _ => fallback
  }

  /** String(value). */
  function Text(value: JsValue, nums: Numbers): string {
    match value
    case JsUndefined => "undefined"
    case JsNull => "null"
    case JsBool(b) => if b then "true" else "false"
    case JsString(s) => s
    case JsNumber(n) => nums.text(n)
    case JsLong(i) => IntToString(i)
    case JsObject => "[object Object]"
  }

  /** toIdString: "" for null and undefined, the text of anything else. */
  function IdString(value: JsValue, nums: Numbers): (r: string)
    ensures value.JsUndefined? || value.JsNull? ==> r == ""
    ensures value.JsString? ==> r == value.s
  {
    if value.JsUndefined? || value.JsNull? then "" else Text(value, nums)
  }

  /** JavaScript truthiness. */
  predicate Truthy(value: JsValue) {
    match value
    case JsUndefined => false
    case JsNull => false
    case JsBool(b) => b
    case JsString(s) => s != ""
    case JsNumber(n) => n != 0.0
    case _ => true
  }

  // ----------------------------------------------------------- static tables

  const TradeEnvs: map<string, real> := map["SIMULATE" := 0.0, "REAL" := 1.0]

  const TradeCategories: map<string, real> := map["SECURITY" := 1.0, "FUTURE" := 2.0]

  const TradeMarkets: map<string, real> := map[
    "HK" := 1.0, "US" := 2.0, "CN" := 3.0, "HKCC" := 4.0, "FUTURES" := 5.0,
    "SG" := 6.0, "JP" := 15.0, "AU" := 8.0, "MY" := 111.0, "CA" := 112.0]

  const SecMarkets: map<real, string> := map[
    1.0 := "HK", 2.0 := "US", 31.0 := "CN-SH", 32.0 := "CN-SZ", 41.0 := "SG",
    51.0 := "JP", 61.0 := "AU", 71.0 := "MY", 81.0 := "CA", 91.0 := "FX"]

  const CurrencyCodes: map<real, string> := map[
    0.0 := "UNKNOWN", 1.0 := "HKD", 2.0 := "USD", 3.0 := "CNH", 4.0 := "JPY",
    5.0 := "SGD", 6.0 := "AUD", 7.0 := "CAD", 8.0 := "MYR"]

  const UsMarket: real := 2.0

  // ------------------------------------------------------- markets and envs

  /** A comma-separated piece as a market key: trimmed and upper-cased. */
  function MarketKey(piece: string): string {
    Upper(Trim(piece))
  }

  function LookupMarket(key: string): (r: Option<real>)
    ensures r.Some? ==> key in TradeMarkets && r.value == TradeMarkets[key]
    ensures r.None? ==> key !in TradeMarkets
  {
    if key in TradeMarkets then Some(TradeMarkets[key]) else None
  }

  function NonEmpty(s: string): bool {
    s != ""
  }

  /** parseMarkets: the codes of the known keys among the comma-separated pieces, in order. */
  function ParseMarkets(raw: JsValue): seq<real> {
    if !raw.JsString? || IsBlank(raw.s) then []
    else Collect(Filter(Map(Split(raw.s, ','), MarketKey), NonEmpty), LookupMarket)
  }

  /** Every parsed market is one of the table's codes. */
  lemma ParsedMarketsKnown(raw: JsValue, m: real)
    requires m in ParseMarkets(raw)
    ensures m in TradeMarkets.Values
  {
    var key := CollectSource(Filter(Map(Split(raw.s, ','), MarketKey), NonEmpty), LookupMarket, m);
  }

  function PieceMarket(piece: string): Option<real> {
    LookupMarket(MarketKey(piece))
  }

  /** Dropping the empty keys changes nothing, since "" is no market: the result is the codes
      of the pieces whose key is known, in order, the unknown ones dropped. */
  lemma ParseMarketsPieces(s: string)
    requires !IsBlank(s)
    ensures ParseMarkets(JsString(s)) == Collect(Split(s, ','), PieceMarket)
  {
    assert "" !in TradeMarkets;
    CollectKeys(Split(s, ','), MarketKey, NonEmpty, LookupMarket, PieceMarket);
  }

  /** A blank or non-string value configures no markets. */
  lemma ParseMarketsBlank(raw: JsValue)
    requires !raw.JsString? || IsBlank(raw.s)
    ensures ParseMarkets(raw) == []
  {
  }

  /** resolveEnvValue: the mapping of the trimmed, upper-cased text when it is a key, else the
      mapping of the fallback key. */
  function ResolveEnvValue(mapping: map<string, real>, value: JsValue, fallbackKey: string): (r: real)
    requires fallbackKey in mapping
    ensures r in mapping.Values
  {
    if value.JsString? && !IsBlank(value.s) && Upper(Trim(value.s)) in mapping then mapping[Upper(Trim(value.s))]
    else mapping[fallbackKey]
  }

  lemma ResolveEnvValueCases(mapping: map<string, real>, value: JsValue, fallbackKey: string)
    requires fallbackKey in mapping
    ensures value.JsString? && Upper(Trim(value.s)) in mapping && Upper(Trim(value.s)) != ""
      ==> ResolveEnvValue(mapping, value, fallbackKey) == mapping[Upper(Trim(value.s))]
    ensures !value.JsString? || Upper(Trim(value.s)) !in mapping
      ==> ResolveEnvValue(mapping, value, fallbackKey) == mapping[fallbackKey]
  {
    if value.JsString? && Upper(Trim(value.s)) != "" {
      assert |Trim(value.s)| > 0;
    }
  }

  // ------------------------------------------------------ currency, markets

  /** resolveCurrency: a number through the code table (USD when unlisted), non-blank text
      trimmed and upper-cased, anything else USD. */
  function ResolveCurrency(raw: JsValue): (r: string)
    ensures raw.JsNumber? && raw.n in CurrencyCodes ==> r == CurrencyCodes[raw.n]
    ensures raw.JsNumber? && raw.n !in CurrencyCodes ==> r == "USD"
    ensures raw.JsString? && !IsBlank(raw.s) ==> r == Upper(Trim(raw.s))
    ensures !raw.JsNumber? && !(raw.JsString? && !IsBlank(raw.s)) ==> r == "USD"
  {
    match raw
    case JsNumber(n) => if n in CurrencyCodes then CurrencyCodes[n] else "USD"
    case JsString(s) => if !IsBlank(s) then Upper(Trim(s)) else "USD"
    case _ => "USD"
  }

  /** A currency is never blank. */
  lemma CurrencyNotEmpty(raw: JsValue)
    ensures ResolveCurrency(raw) != ""
  {
    match raw
    case JsNumber(n) =>
      if n in CurrencyCodes {
        assert forall k :: k in CurrencyCodes ==> CurrencyCodes[k] != "";
      }
    case JsString(s) =>
    case _ =>
  }

  /** resolveMarketFromSymbol: the text before the first '.', when there is one. */
  function MarketFromSymbol(symbol: string): Option<string> {
    if '.' in symbol then Some(Split(symbol, '.')[0]) else None
  }

  lemma MarketFromSymbolPrefix(market: string, rest: string)
    requires '.' !in market
    ensures MarketFromSymbol(market + "." + rest) == Some(market)
  {
    assert market + "." + rest == market + ['.'] + rest;
    SplitAfterPiece(market, '.', rest);
    assert (market + ['.'] + rest)[|market|] == '.';
  }

  lemma MarketFromSymbolNone(symbol: string)
    ensures MarketFromSymbol(symbol).None? <==> '.' !in symbol
  {
  }

  /** resolveSecMarket: the table's name of a listed code, "--" for anything else. */
  function ResolveSecMarket(raw: JsValue): (r: string)
    ensures raw.JsNumber? && raw.n in SecMarkets ==> r == SecMarkets[raw.n]
    ensures !(raw.JsNumber? && raw.n in SecMarkets) ==> r == "--"
  {
    if raw.JsNumber? && raw.n in SecMarkets then SecMarkets[raw.n] else "--"
  }

  // ------------------------------------------------------------ configuration

  /** The configuration values read from the environment. */
  datatype Env = Env(ssl: JsValue, tradeEnv: JsValue, tradeCategory: JsValue, accountId: JsValue, markets: JsValue)

  datatype Config = Config(ssl: bool, tradeEnv: real, tradeCategory: real, accountId: Option<string>, markets: seq<real>)

  /** loadConfig for the values the selection rules use. */
  function LoadConfig(env: Env, nums: Numbers): (c: Config)
    ensures c.tradeEnv in TradeEnvs.Values && c.tradeCategory in TradeCategories.Values
  {
    Config(
      ToBoolean(env.ssl),
      ResolveEnvValue(TradeEnvs, env.tradeEnv, "REAL"),
      ResolveEnvValue(TradeCategories, env.tradeCategory, "SECURITY"),
      if Truthy(env.accountId) then Some(Trim(Text(env.accountId, nums))) else None,
      ParseMarkets(env.markets))
  }

  // ------------------------------------------------------------ the account

  /** One entry of the account list. */
  datatype Account = Account(accID: JsValue, trdEnv: JsValue, trdMarketAuthList: Option<seq<JsValue>>)

  const NoAccountsMessage: string := "未获取到可用的交易账户"
  const MissingAccIdMessage: string := "交易账户信息缺少 accID"

  predicate WantsAccount(config: Config) {
    config.accountId.Some? && config.accountId.value != ""
  }

  /** The account chosen: the configured accID, else the first with the configured trading
      environment, else the first. */
  function SelectAccount(accList: seq<Account>, config: Config, nums: Numbers): (k: nat)
    requires |accList| > 0
    ensures k < |accList|
  {
    var byId := if WantsAccount(config) then FirstWhere(accList, (a: Account) => IdString(a.accID, nums) == config.accountId.value) else None;
    if byId.Some? then byId.value
    else match FirstWhere(accList, (a: Account) => ToNumber(a.trdEnv, 0.0, nums) == config.tradeEnv)
      case Some(k) => k
      case None => 0
  }

  /** The authorised markets of an account: its list's positive numbers. */
  function AccountMarkets(a: Account, nums: Numbers): (ms: seq<real>)
    ensures forall i :: 0 <= i < |ms| ==> ms[i] > 0.0
  {
    if a.trdMarketAuthList.None? then []
    else Filter(Map(a.trdMarketAuthList.value, (v: JsValue) => ToNumber(v, 0.0, nums)), (m: real) => m > 0.0)
  }

  /** The account id and markets ensureAccount settles on, or its error. */
  function AccountOutcome(accList: Option<seq<Account>>, config: Config, nums: Numbers): Result<(string, seq<real>), string> {
    if accList.None? || |accList.value| == 0 then Err(NoAccountsMessage)
    else
      var selected := accList.value[SelectAccount(accList.value, config, nums)];
      var accId := IdString(selected.accID, nums);
      if accId == "" then Err(MissingAccIdMessage)
      else Ok((accId, AccountMarkets(selected, nums)))
  }

  /** The configured account wins whenever it is listed. */
  lemma SelectsConfiguredAccount(accList: seq<Account>, config: Config, nums: Numbers, k: nat)
    requires k < |accList| && WantsAccount(config) && IdString(accList[k].accID, nums) == config.accountId.value
    requires forall j :: 0 <= j < k ==> IdString(accList[j].accID, nums) != config.accountId.value
    ensures SelectAccount(accList, config, nums) == k
  {
    FirstWhereAt(accList, (a: Account) => IdString(a.accID, nums) == config.accountId.value, k);
  }

  /** Without a listed configured account, the first account in the trading environment. */
  lemma SelectsAccountByEnv(accList: seq<Account>, config: Config, nums: Numbers, k: nat)
    requires k < |accList| && ToNumber(accList[k].trdEnv, 0.0, nums) == config.tradeEnv
    requires forall j :: 0 <= j < k ==> ToNumber(accList[j].trdEnv, 0.0, nums) != config.tradeEnv
    requires !WantsAccount(config) || forall j :: 0 <= j < |accList| ==> IdString(accList[j].accID, nums) != config.accountId.value
    ensures SelectAccount(accList, config, nums) == k
  {
    FirstWhereAt(accList, (a: Account) => ToNumber(a.trdEnv, 0.0, nums) == config.tradeEnv, k);
  }

  /** With neither, the first account. */
  lemma SelectsFirstAccount(accList: seq<Account>, config: Config, nums: Numbers)
    requires |accList| > 0
    requires forall j :: 0 <= j < |accList| ==> ToNumber(accList[j].trdEnv, 0.0, nums) != config.tradeEnv
    requires !WantsAccount(config) || forall j :: 0 <= j < |accList| ==> IdString(accList[j].accID, nums) != config.accountId.value
    ensures SelectAccount(accList, config, nums) == 0
  {
  }

  /** An empty or missing list is an error; a chosen account always has a non-empty id. */
  lemma AccountOutcomeCases(accList: Option<seq<Account>>, config: Config, nums: Numbers)
    ensures accList.None? || accList.value == [] ==> AccountOutcome(accList, config, nums) == Err(NoAccountsMessage)
    ensures AccountOutcome(accList, config, nums).Ok? ==> AccountOutcome(accList, config, nums).value.0 != ""
  {
  }

  /** The service state the account and market rules read and write. */
  class PortfolioService {
    const config: Config
    const nums: Numbers
    var accountId: Option<string>
    var accountMarkets: seq<real>

    constructor (config: Config, nums: Numbers)
      ensures this.config == config && this.nums == nums
      ensures accountId == None && accountMarkets == []
    {
      this.config := config;
      this.nums := nums;
      accountId := None;
      accountMarkets := [];
    }

    /** ensureAccount: a known account is returned as is; otherwise the account list (the
        GetAccList response) decides the account id and markets, or the error. */
    method EnsureAccount(accList: Option<seq<Account>>) returns (r: Result<string, string>)
      modifies this
      ensures old(accountId).Some? && old(accountId).value != "" ==>
        r == Ok(old(accountId).value) && accountId == old(accountId) && accountMarkets == old(accountMarkets)
      ensures !(old(accountId).Some? && old(accountId).value != "") ==>
        match AccountOutcome(accList, config, nums)
        case Err(e) => r == Err(e) && accountId == old(accountId) && accountMarkets == old(accountMarkets)
        case Ok(chosen) => r == Ok(chosen.0) && accountId == Some(chosen.0) && accountMarkets == chosen.1
      ensures r.Ok? ==> accountId == Some(r.value) && r.value != ""
    {
      if accountId.Some? && accountId.value != "" {
        return Ok(accountId.value);
      }
      AccountOutcomeCases(accList, config, nums);
      var outcome := AccountOutcome(accList, config, nums);
      if outcome.Err? {
        return Err(outcome.error);
      }
      accountId := Some(outcome.value.0);
      accountMarkets := outcome.value.1;
      return Ok(outcome.value.0);
    }

    /** resolveTargetMarkets over the current state. */
    function TargetMarkets(): seq<real>
      reads this
    {
      ResolveTargetMarkets(accountMarkets, config.markets)
    }
  }

  /** The account's markets that are configured, if there are any and both lists are
      non-empty; else the account's markets; else the configured ones; else US. */
  function ResolveTargetMarkets(accountMarkets: seq<real>, configured: seq<real>): seq<real> {
    var intersection := Filter(accountMarkets, (m: real) => m in configured);
    if |configured| > 0 && |accountMarkets| > 0 && |intersection| > 0 then intersection
    else if |accountMarkets| > 0 then accountMarkets
    else if |configured| > 0 then configured
    else [UsMarket]
  }

  /** Without shared markets the account's markets win, then the configured ones, then US;
      the result is never empty. */
  lemma TargetMarketsFallbacks(accountMarkets: seq<real>, configured: seq<real>)
    ensures |ResolveTargetMarkets(accountMarkets, configured)| > 0
    ensures (forall m :: m in accountMarkets ==> m !in configured) && accountMarkets != []
      ==> ResolveTargetMarkets(accountMarkets, configured) == accountMarkets
    ensures accountMarkets == [] && configured != [] ==> ResolveTargetMarkets(accountMarkets, configured) == configured
    ensures accountMarkets == [] && configured == [] ==> ResolveTargetMarkets(accountMarkets, configured) == [UsMarket]
  {
    if forall m :: m in accountMarkets ==> m !in configured {
      FilterNone(accountMarkets, (m: real) => m in configured);
    }
  }

  /** When both lists are given and share markets, exactly the shared ones, in the account's order. */
  lemma TargetMarketsIntersect(accountMarkets: seq<real>, configured: seq<real>)
    requires exists m :: m in accountMarkets && m in configured
    ensures ResolveTargetMarkets(accountMarkets, configured) == Filter(accountMarkets, (m: real) => m in configured)
    ensures forall m :: m in ResolveTargetMarkets(accountMarkets, configured) <==> m in accountMarkets && m in configured
  {
    var m :| m in accountMarkets && m in configured;
    assert m in Filter(accountMarkets, (m: real) => m in configured);
  }

  // ------------------------------------------------------------ the overview

  /** One normalised position. */
  datatype Position = Position(
    symbol: string, market: string, quantity: real, costPrice: real, lastPrice: real,
    marketValue: real, pnl: real, todayPnl: real, currency: string)

  datatype Cash = Cash(currency: string, totalAssets: real, availableCash: real, buyingPower: real)

  datatype Overview = Overview(
    accountId: string, source: string, totalMarketValue: real, totalCostValue: real,
    totalPnl: real, totalPnlRatio: real, todayPnl: real, todayPnlRatio: real,
    updateTime: string, cash: Cash)

  function MarketValueOf(p: Position): real { p.marketValue }
  function CostOf(p: Position): real { p.costPrice * p.quantity }
  function PnlOf(p: Position): real { p.pnl }
  function TodayPnlOf(p: Position): real { p.todayPnl }

  /** A percentage of the total cost: 0 when there is no cost. */
  function Ratio(value: real, cost: real): (r: real)
    ensures cost == 0.0 ==> r == 0.0
    ensures cost != 0.0 ==> r * cost == value * 100.0
  {
    if cost != 0.0 then value / cost * 100.0 else 0.0
  }

  /** buildOverview; the update time (the clock) is a parameter. */
  function BuildOverview(accountId: string, cash: Cash, positions: seq<Position>, updateTime: string): Overview {
    var totalMarketValue := SumOf(positions, MarketValueOf);
    var totalCostValue := SumOf(positions, CostOf);
    var totalPnl := SumOf(positions, PnlOf);
    var todayPnl := SumOf(positions, TodayPnlOf);
    Overview(accountId, "futu", totalMarketValue, totalCostValue, totalPnl, Ratio(totalPnl, totalCostValue),
      todayPnl, Ratio(todayPnl, totalCostValue), updateTime, cash)
  }

  /** The totals add up the positions, in any order; both ratios are 0 without cost. */
  lemma OverviewTotals(accountId: string, cash: Cash, positions: seq<Position>, updateTime: string, reordered: seq<Position>)
    requires multiset(reordered) == multiset(positions)
    ensures var o := BuildOverview(accountId, cash, positions, updateTime);
      && o == BuildOverview(accountId, cash, reordered, updateTime)
      && (o.totalCostValue == 0.0 ==> o.totalPnlRatio == 0.0 && o.todayPnlRatio == 0.0)
      && (o.totalCostValue != 0.0 ==> o.totalPnlRatio * o.totalCostValue == o.totalPnl * 100.0)
  {
    SumOfPermutation(positions, reordered, MarketValueOf);
    SumOfPermutation(positions, reordered, CostOf);
    SumOfPermutation(positions, reordered, PnlOf);
    SumOfPermutation(positions, reordered, TodayPnlOf);
  }

  lemma OverviewOfNoPositions(accountId: string, cash: Cash, updateTime: string)
    ensures var o := BuildOverview(accountId, cash, [], updateTime);
      o.totalMarketValue == 0.0 && o.totalPnlRatio == 0.0 && o.todayPnlRatio == 0.0
  {
  }

  /** computeEquity: the total assets when positive, else market value plus available cash. */
  function ComputeEquity(o: Overview): (e: real)
    ensures o.cash.totalAssets > 0.0 ==> e == o.cash.totalAssets
    ensures o.cash.totalAssets <= 0.0 ==> e == o.totalMarketValue + o.cash.availableCash
  {
    if o.cash.totalAssets != 0.0 && o.cash.totalAssets > 0.0 then o.cash.totalAssets
    else o.totalMarketValue + o.cash.availableCash
  }

  // ---------------------------------------------------------- equity curve

  datatype EquityPoint = EquityPoint(timestamp: string, equity: real, pnl: real)

  /** A point with its parsed time in milliseconds. */
  datatype TimedPoint = TimedPoint(time: int, equity: real, pnl: real)

  /** The Date behaviour the curve relies on: getTime of a timestamp (None when invalid) and
      toISOString of a time. */
  datatype Clock = Clock(parseTime: string -> Option<int>, iso: int -> string)

  const ThirtyDaysMs: int := 30 * 24 * 60 * 60 * 1000

  /** A stored point that is kept: a valid time no older than the cutoff. */
  function Recent(clock: Clock, cutoff: int): EquityPoint -> Option<TimedPoint> {
    (p: EquityPoint) =>
      match clock.parseTime(p.timestamp)
      case Some(t) => if t >= cutoff then Some(TimedPoint(t, p.equity, p.pnl)) else None
      case None => None
  }

  predicate TimeLe(a: TimedPoint, b: TimedPoint) {
    a.time <= b.time
  }

  /** The ISO text of a point's time: what the dedup compares. */
  function IsoKey(iso: int -> string): TimedPoint -> string {
    (p: TimedPoint) => iso(p.time)
  }

  function Stamp(iso: int -> string): TimedPoint -> EquityPoint {
    (p: TimedPoint) => EquityPoint(iso(p.time), p.equity, p.pnl)
  }

  /** The points the curve sorts: the recent stored ones, then the new entry. */
  function CurvePoints(history: seq<EquityPoint>, clock: Clock, now: int, entry: TimedPoint): seq<TimedPoint> {
    Collect(history, Recent(clock, now - ThirtyDaysMs)) + [entry]
  }

  /** The sorted points with each run of equal ISO text collapsed. */
  function CurveTimes(history: seq<EquityPoint>, clock: Clock, now: int, entry: TimedPoint): seq<TimedPoint> {
    Collapse(SortBy(CurvePoints(history, clock, now, entry), TimeLe), IsoKey(clock.iso))
  }

  /** updateAndGetEquityCurve as a value. */
  function EquityCurveSpec(history: seq<EquityPoint>, clock: Clock, now: int, entry: TimedPoint): seq<EquityPoint> {
    Map(CurveTimes(history, clock, now, entry), Stamp(clock.iso))
  }

  /** updateAndGetEquityCurve: the stored history (already loaded), the current time `now`, the
      overview's update time in milliseconds and the overview; outside a browser no curve. */
  method UpdateEquityCurve(browser: bool, history: seq<EquityPoint>, clock: Clock, now: int, updateTime: int, overview: Overview)
    returns (curve: seq<EquityPoint>)
    ensures !browser ==> curve == []
    ensures browser ==> curve == EquityCurveSpec(history, clock, now, TimedPoint(updateTime, ComputeEquity(overview), overview.totalPnl))
  {
    if !browser {
      return [];
    }
    var entry := TimedPoint(updateTime, ComputeEquity(overview), overview.totalPnl);
    var filtered := Collect(history, Recent(clock, now - ThirtyDaysMs)) + [entry];
    var sorted := SortBy(filtered, TimeLe);
    var deduped: seq<TimedPoint> := [];
    for i := 0 to |sorted|
      invariant deduped == Collapse(sorted[..i], IsoKey(clock.iso))
    {
      assert sorted[..i + 1][..i] == sorted[..i];
      var iso := clock.iso(sorted[i].time);
      if |deduped| > 0 && clock.iso(deduped[|deduped| - 1].time) == iso {
        deduped := deduped[..|deduped| - 1] + [sorted[i]];
      } else {
        deduped := deduped + [sorted[i]];
      }
    }
    assert sorted[..|sorted|] == sorted;
    curve := Map(deduped, Stamp(clock.iso));
  }

  // ------------------------------------------------- collapsing equal runs

  /** Neighbours with the same key collapse into the later one. */
  function Collapse<T, S(==)>(xs: seq<T>, key: T -> S): (r: seq<T>)
    ensures |r| <= |xs| && (r == [] <==> xs == [])
  {
    if xs == [] then []
    else
      var d := Collapse(xs[..|xs| - 1], key);
      var x := xs[|xs| - 1];
      if d != [] && key(d[|d| - 1]) == key(x) then d[..|d| - 1] + [x] else d + [x]
  }

  /** Position k ends a run of equal keys. */
  predicate RunEnd<T, S(==)>(xs: seq<T>, key: T -> S, k: nat)
    requires k < |xs|
  {
    k + 1 == |xs| || key(xs[k + 1]) != key(xs[k])
  }

  /** The input positions Collapse keeps, computed alongside it. */
  function KeptPositions<T, S(==)>(xs: seq<T>, key: T -> S): (ks: seq<nat>)
    ensures forall j :: 0 <= j < |ks| ==> ks[j] < |xs|
    ensures xs != [] ==> |ks| > 0 && ks[|ks| - 1] == |xs| - 1
  {
    if xs == [] then []
    else
      var d := KeptPositions(xs[..|xs| - 1], key);
      if d != [] && key(xs[d[|d| - 1]]) == key(xs[|xs| - 1]) then d[..|d| - 1] + [|xs| - 1]
      else d + [|xs| - 1]
  }

  /** Collapse keeps exactly the points at those positions. */
  lemma {:induction false} KeptSelect<T, S>(xs: seq<T>, key: T -> S)
    ensures |KeptPositions(xs, key)| == |Collapse(xs, key)|
    ensures forall j :: 0 <= j < |KeptPositions(xs, key)| ==> Collapse(xs, key)[j] == xs[KeptPositions(xs, key)[j]]
  {
    if xs != [] {
      var init := xs[..|xs| - 1];
      KeptSelect(init, key);
      var d, c := KeptPositions(init, key), Collapse(init, key);
      var ks, r := KeptPositions(xs, key), Collapse(xs, key);
      forall j | 0 <= j < |d| ensures d[j] < |init| && c[j] == xs[d[j]] {
        assert init[d[j]] == xs[d[j]];
      }
      SelectStep(xs, key, d, c, ks, r);
    }
  }

  /** One step of KeptSelect, on the values before and after the last element. */
  lemma SelectStep<T, S>(xs: seq<T>, key: T -> S, d: seq<nat>, c: seq<T>, ks: seq<nat>, r: seq<T>)
    requires xs != [] && |d| == |c|
    requires forall j :: 0 <= j < |d| ==> d[j] < |xs| && c[j] == xs[d[j]]
    requires ks == if d != [] && key(xs[d[|d| - 1]]) == key(xs[|xs| - 1]) then d[..|d| - 1] + [|xs| - 1] else d + [|xs| - 1]
    requires r == if c != [] && key(c[|c| - 1]) == key(xs[|xs| - 1]) then c[..|c| - 1] + [xs[|xs| - 1]] else c + [xs[|xs| - 1]]
    ensures |ks| == |r| && forall j :: 0 <= j < |ks| ==> r[j] == xs[ks[j]]
  {
    var merge := d != [] && key(xs[d[|d| - 1]]) == key(xs[|xs| - 1]);
    var n := if merge then |d| - 1 else |d|;
    assert d[..|d|] == d && c[..|c|] == c;
    SelectSnoc(xs, d, c, n, ks, r);
  }

  /** One step of KeptSelect: the same prefix of both, then the last element. */
  lemma SelectSnoc<T>(xs: seq<T>, d: seq<nat>, c: seq<T>, n: nat, ks: seq<nat>, r: seq<T>)
    requires xs != [] && n <= |d| == |c|
    requires forall j :: 0 <= j < |d| ==> d[j] < |xs| && c[j] == xs[d[j]]
    requires ks == d[..n] + [|xs| - 1] && r == c[..n] + [xs[|xs| - 1]]
    ensures |ks| == |r| && forall j :: 0 <= j < |ks| ==> r[j] == xs[ks[j]]
  {
  }

  /** The kept positions go up. */
  lemma {:induction false} KeptPositionsIncrease<T, S>(xs: seq<T>, key: T -> S)
    ensures forall i, j :: 0 <= i < j < |KeptPositions(xs, key)| ==> KeptPositions(xs, key)[i] < KeptPositions(xs, key)[j]
  {
    if xs != [] {
      KeptPositionsIncrease(xs[..|xs| - 1], key);
    }
  }

  /** Only run ends are kept: on a tie the later element wins. */
  lemma {:induction false} KeptAreRunEnds<T, S>(xs: seq<T>, key: T -> S)
    ensures forall j :: 0 <= j < |KeptPositions(xs, key)| ==> RunEnd(xs, key, KeptPositions(xs, key)[j])
  {
    if xs != [] {
      var init := xs[..|xs| - 1];
      KeptAreRunEnds(init, key);
      var d := KeptPositions(init, key);
      var ks := KeptPositions(xs, key);
      forall j | 0 <= j < |ks| ensures RunEnd(xs, key, ks[j]) {
        if j < |ks| - 1 {
          assert ks[j] == d[j] && RunEnd(init, key, d[j]);
          if d[j] + 1 == |init| {
            assert j == |d| - 1;
          }
        }
      }
    }
  }

  /** Every run end is kept: no run is lost. */
  lemma {:induction false} RunEndsAreKept<T, S>(xs: seq<T>, key: T -> S, k: nat)
    requires k < |xs| && RunEnd(xs, key, k)
    ensures k in KeptPositions(xs, key)
  {
    var init := xs[..|xs| - 1];
    if k < |xs| - 1 {
      assert RunEnd(init, key, k);
      RunEndsAreKept(init, key, k);
      var d := KeptPositions(init, key);
      var m :| 0 <= m < |d| && d[m] == k;
      if m == |d| - 1 {
        assert key(xs[d[|d| - 1]]) != key(xs[|xs| - 1]);
      }
      assert KeptPositions(xs, key)[m] == k;
    }
  }

  /** Neighbours in a collapsed sequence never share a key. */
  lemma {:induction false} CollapseNeighboursDiffer<T, S>(xs: seq<T>, key: T -> S)
    ensures forall j :: 0 <= j < |Collapse(xs, key)| - 1 ==> key(Collapse(xs, key)[j]) != key(Collapse(xs, key)[j + 1])
  {
    if xs != [] {
      CollapseNeighboursDiffer(xs[..|xs| - 1], key);
    }
  }

  /** Collapsing only drops elements. */
  lemma {:induction false} CollapseFrom<T, S>(xs: seq<T>, key: T -> S, p: T)
    requires p in Collapse(xs, key)
    ensures p in xs
  {
    var init := xs[..|xs| - 1];
    var d := Collapse(init, key);
    if p != xs[|xs| - 1] {
      assert p in d;
      CollapseFrom(init, key, p);
    }
  }

  /** Collapsing keeps a sequence sorted. */
  lemma CollapseSorted<T, S>(xs: seq<T>, key: T -> S, le: (T, T) -> bool)
    requires SortedBy(xs, le)
    ensures SortedBy(Collapse(xs, key), le)
  {
    var ks := KeptPositions(xs, key);
    KeptPositionsIncrease(xs, key);
    KeptSelect(xs, key);
    var r := Collapse(xs, key);
    forall i, j | 0 <= i < j < |r| ensures le(r[i], r[j]) {
      assert r[i] == xs[ks[i]] && r[j] == xs[ks[j]];
    }
  }

  // ---------------------------------------------------------- the curve

  /** The curve ascends in time and no two neighbours share a timestamp. */
  lemma EquityCurveOrdered(history: seq<EquityPoint>, clock: Clock, now: int, entry: TimedPoint)
    ensures SortedBy(CurveTimes(history, clock, now, entry), TimeLe)
    ensures var curve := EquityCurveSpec(history, clock, now, entry);
      forall j :: 0 <= j < |curve| - 1 ==> curve[j].timestamp != curve[j + 1].timestamp
  {
    var points := CurvePoints(history, clock, now, entry);
    assert TotalPreorder(TimeLe);
    SortBySorted(points, TimeLe);
    CollapseSorted(SortBy(points, TimeLe), IsoKey(clock.iso), TimeLe);
    CollapseNeighboursDiffer(SortBy(points, TimeLe), IsoKey(clock.iso));
  }

  /** On a tie the later point wins: each point kept ends its run of equal timestamps in the
      sorted points, and each run keeps one point. */
  lemma EquityCurveLastOfRuns(history: seq<EquityPoint>, clock: Clock, now: int, entry: TimedPoint)
    returns (sorted: seq<TimedPoint>, kept: seq<nat>)
    ensures multiset(sorted) == multiset(CurvePoints(history, clock, now, entry)) && SortedBy(sorted, TimeLe)
    ensures |kept| == |CurveTimes(history, clock, now, entry)|
    ensures forall j :: 0 <= j < |kept| ==> kept[j] < |sorted| && CurveTimes(history, clock, now, entry)[j] == sorted[kept[j]]
    ensures forall j :: 0 <= j < |kept| ==> RunEnd(sorted, IsoKey(clock.iso), kept[j])
    ensures forall k :: 0 <= k < |sorted| && RunEnd(sorted, IsoKey(clock.iso), k) ==> k in kept
  {
    var points := CurvePoints(history, clock, now, entry);
    sorted := SortBy(points, TimeLe);
    assert TotalPreorder(TimeLe);
    SortBySorted(points, TimeLe);
    kept := KeptPositions(sorted, IsoKey(clock.iso));
    KeptSelect(sorted, IsoKey(clock.iso));
    KeptAreRunEnds(sorted, IsoKey(clock.iso));
    forall k | 0 <= k < |sorted| && RunEnd(sorted, IsoKey(clock.iso), k) ensures k in kept {
      RunEndsAreKept(sorted, IsoKey(clock.iso), k);
    }
  }

  /** Every point on the curve is the new entry or a stored point at most thirty days old. */
  lemma EquityCurveWindow(history: seq<EquityPoint>, clock: Clock, now: int, entry: TimedPoint, p: TimedPoint)
    requires p in CurveTimes(history, clock, now, entry)
    ensures p == entry || p.time >= now - ThirtyDaysMs
  {
    var points := CurvePoints(history, clock, now, entry);
    CollapseFrom(SortBy(points, TimeLe), IsoKey(clock.iso), p);
    assert p in multiset(points);
    if p != entry {
      var stored := CollectSource(history, Recent(clock, now - ThirtyDaysMs), p);
    }
  }

  /** When distinct times print differently, the new entry survives the dedup: it sorts after
      every stored point of the same time, so it ends its run and replaces them. */
  lemma EquityCurveKeepsEntry(history: seq<EquityPoint>, clock: Clock, now: int, entry: TimedPoint)
    requires forall a, b :: clock.iso(a) == clock.iso(b) ==> a == b
    ensures entry in CurveTimes(history, clock, now, entry)
  {
    var recent := Collect(history, Recent(clock, now - ThirtyDaysMs));
    var points := recent + [entry];
    assert points[..|points| - 1] == recent;
    var sorted := SortBy(points, TimeLe);
    assert TotalPreorder(TimeLe);
    SortBySorted(recent, TimeLe);
    GreaterFormSuffix(SortBy(recent, TimeLe), entry, TimeLe);
    var k := InsertSortedLastOfEquals(SortBy(recent, TimeLe), entry, TimeLe);
    assert sorted[k] == entry;
    assert RunEnd(sorted, IsoKey(clock.iso), k);
    RunEndsAreKept(sorted, IsoKey(clock.iso), k);
    KeptSelect(sorted, IsoKey(clock.iso));
    var m :| 0 <= m < |KeptPositions(sorted, IsoKey(clock.iso))| && KeptPositions(sorted, IsoKey(clock.iso))[m] == k;
    assert CurveTimes(history, clock, now, entry)[m] == entry;
  }
}
