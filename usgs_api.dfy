/** Request construction, default date windows and the site-capability filter
    of the USGS client (src/data/usgs_api.py). The network calls themselves are
    not modelled: the requests are returned as values and the site-search
    response is an input. */
module UsgsApi {
  import opened Wrappers
  import Text
  import StationConfig

  const MINUTES_PER_HOUR := 60
  const MINUTES_PER_DAY := 24 * MINUTES_PER_HOUR
  const DEFAULT_DAYS_BACK := 500

  /** A date string the caller passes, by the instant it names: 'YYYY-MM-DD'
      (a day number) or 'YYYY-MM-DDTHH:MM' (a minute number), both counted from
      the same epoch. */
  datatype DateText = DateOnly(day: int) | DateTime(minute: int)

  /** `datetime.fromisoformat`: both forms parse; a bare date means midnight. */
  function FromIsoFormat(d: DateText): (m: int)
    ensures d.DateTime? ==> m == d.minute
    ensures d.DateOnly? ==> m == d.day * MINUTES_PER_DAY
  {
    match d
    case DateOnly(day) => day * MINUTES_PER_DAY
    case DateTime(minute) => minute
  }

  /** `datetime.strptime(d, '%Y-%m-%d')`: only the bare-date form parses. */
  function StrptimeDate(d: DateText): (r: Option<int>)
    ensures r.Some? <==> d.DateOnly?
    ensures r.Some? ==> r.value == d.day
  {
    match d
    case DateOnly(day) => Some(day)
    case DateTime(_) => None
  }

  /** The codes a call uses: `PARAM_CODES` when the argument is omitted. */
  function ResolveCodes(paramCodes: Option<seq<string>>): (codes: seq<string>)
    ensures paramCodes.None? ==> codes == StationConfig.PARAM_CODES
    ensures paramCodes.Some? ==> codes == paramCodes.value
  {
    if paramCodes.None? then StationConfig.PARAM_CODES else paramCodes.value
  }

  /** The arguments handed to `waterdata.get_continuous`, times in minutes
      (the '%Y-%m-%dT%H:%M' strings). */
  datatype ContinuousRequest = ContinuousRequest(siteId: string, parameterCodes: seq<string>, start: int, end: int)

  datatype ApiError = DateFormatMismatch  // ValueError from strptime

  /** `get_instantaneous_data` up to the fetch; `now` is `datetime.now()` in minutes. */
  function InstantaneousRequest(siteId: string, paramCodes: Option<seq<string>>,
                                startDate: Option<DateText>, endDate: Option<DateText>, now: int): (r: ContinuousRequest)
    ensures r.siteId == siteId && r.parameterCodes == ResolveCodes(paramCodes)
    ensures r.end == (if endDate.None? then now else FromIsoFormat(endDate.value))
    ensures startDate.None? ==> r.start == r.end - 24 * MINUTES_PER_HOUR
    ensures startDate.Some? ==> r.start == FromIsoFormat(startDate.value)
  {
    var end := if endDate.None? then now else FromIsoFormat(endDate.value);
    var start := if startDate.None? then end - 24 * MINUTES_PER_HOUR else FromIsoFormat(startDate.value);
    ContinuousRequest(siteId, ResolveCodes(paramCodes), start, end)
  }

  /** `get_historical_data`: the end defaults to today's date, the start to
      `daysBack` days before the end, parsed as a bare date. */
  function HistoricalRequest(siteId: string, paramCodes: Option<seq<string>>, startDate: Option<DateText>,
                             endDate: Option<DateText>, daysBack: int, now: int): (r: Result<ContinuousRequest, ApiError>)
    ensures r.Failure? <==> startDate.None? && endDate.Some? && endDate.value.DateTime?
    ensures r.Success? ==> r.value.siteId == siteId && r.value.parameterCodes == ResolveCodes(paramCodes)
    ensures r.Success? && startDate.Some? ==> r.value.start == FromIsoFormat(startDate.value)
    ensures r.Success? && endDate.Some? ==> r.value.end == FromIsoFormat(endDate.value)
    ensures r.Success? && startDate.None? ==> r.value.start == r.value.end - daysBack * MINUTES_PER_DAY
    ensures r.Success? && endDate.None? ==> r.value.end <= now < r.value.end + MINUTES_PER_DAY
    ensures r.Success? && endDate.None? ==> r.value.end % MINUTES_PER_DAY == 0
  {
    var end := if endDate.None? then DateOnly(now / MINUTES_PER_DAY) else endDate.value;
    if startDate.None? then
      match StrptimeDate(end)
      case None => Failure(DateFormatMismatch)
      case Some(day) => Success(InstantaneousRequest(siteId, paramCodes, Some(DateOnly(day - daysBack)), Some(end), now))
    else
      Success(InstantaneousRequest(siteId, paramCodes, startDate, Some(end), now))
  }

  /** With every default taken, the historical window is the 500 days up to today's midnight. */
  lemma HistoricalDefaultWindow(siteId: string, now: int)
    ensures var r := HistoricalRequest(siteId, None, None, None, DEFAULT_DAYS_BACK, now);
      && r.Success?
      && r.value.parameterCodes == StationConfig.PARAM_CODES
      && r.value.end - r.value.start == 500 * 24 * 60
      && r.value.end <= now < r.value.end + 24 * 60
  {
  }

  // ----- find_sites_with_parameters -----

  /** `stateCd` is sent only for a truthy state code: present and non-empty. */
  predicate Truthy(stateCode: Option<string>)
  {
    stateCode.Some? && stateCode.value != ""
  }

  /** The query dictionary sent to the site service. */
  function SiteQuery(codes: seq<string>, stateCode: Option<string>, siteType: string, siteStatus: string): (q: map<string, string>)
    ensures q.Keys == {"format", "parameterCd", "siteType", "siteStatus"} + (if Truthy(stateCode) then {"stateCd"} else {})
    ensures q["format"] == "json" && q["parameterCd"] == Text.Join(codes, ',')
    ensures q["siteType"] == siteType && q["siteStatus"] == siteStatus
    ensures Truthy(stateCode) ==> q["stateCd"] == stateCode.value
  {
    var params := map["format" := "json", "parameterCd" := Text.Join(codes, ','),
                       "siteType" := siteType, "siteStatus" := siteStatus];
    if Truthy(stateCode) then params["stateCd" := stateCode.value] else params
  }

  /** With its defaults, the site search sends exactly the configured `SITE_SEARCH_PARAMS`. */
  lemma DefaultQueryIsSiteSearchParams()
    ensures SiteQuery(ResolveCodes(None), None, "ST", "active") == StationConfig.SITE_SEARCH_PARAMS
  {
  }

  /** One time series of the JSON response: `sourceInfo.siteCode[0].value` and
      `variable.variableCode[0].value`. */
  datatype TimeSeries = TimeSeries(siteCode: string, variableCode: string)

  /** The JSON response, where `value` and `value.timeSeries` may be absent. */
  datatype SiteResponse = SiteResponse(value: Option<ValueBlock>)
  datatype ValueBlock = ValueBlock(timeSeries: Option<seq<TimeSeries>>)

  /** `data.get('value', {}).get('timeSeries', [])` */
  function SeriesOf(response: SiteResponse): (s: seq<TimeSeries>)
    ensures response.value.None? || response.value.value.timeSeries.None? ==> s == []
    ensures response.value.Some? && response.value.value.timeSeries.Some? ==> s == response.value.value.timeSeries.value
  {
    match response.value
    case None => []
    case Some(block) => if block.timeSeries.None? then [] else block.timeSeries.value
  }

  /** The distinct sites of the series in order of first appearance: the key
      order of a Python dict filled by the series in turn. */
  function SitesInOrder(series: seq<TimeSeries>): (r: seq<string>)
    ensures forall s :: s in r <==> exists k :: 0 <= k < |series| && series[k].siteCode == s
    ensures forall i, j :: 0 <= i < j < |r| ==> r[i] != r[j]
  {
    if series == [] then []
    else
      var init := series[..|series| - 1];
      var earlier := SitesInOrder(init);
      var site := series[|series| - 1].siteCode;
      assert forall k :: 0 <= k < |init| ==> init[k] == series[k];
      if site in earlier then earlier else earlier + [site]
  }

  /** Every code the series report for `site`. */
  function CodesAt(series: seq<TimeSeries>, site: string): set<string>
  {
    set k | 0 <= k < |series| && series[k].siteCode == site :: series[k].variableCode
  }

  /** The sites of `order` (in that order) whose reported codes include every desired one. */
  function SitesWithAll(order: seq<string>, series: seq<TimeSeries>, desired: set<string>): (r: seq<string>)
    ensures forall s :: s in r <==> s in order && desired <= CodesAt(series, s)
  {
    if order == [] then []
    else
      var rest := SitesWithAll(order[1..], series, desired);
      assert forall s :: s in order <==> s == order[0] || s in order[1..];
      if desired <= CodesAt(series, order[0]) then [order[0]] + rest else rest
  }

  datatype SiteSearch = SiteSearch(url: string, query: map<string, string>, sites: seq<string>)

  /** `find_sites_with_parameters`: the request it sends and the sites it returns,
      given the response the service sends back. */
  method FindSitesWithParameters(paramCodes: Option<seq<string>>, stateCode: Option<string>,
                                 siteType: string, siteStatus: string, response: SiteResponse)
    returns (r: SiteSearch)
    ensures r.url == StationConfig.USGS_API_BASE_URL
    ensures r.query == SiteQuery(ResolveCodes(paramCodes), stateCode, siteType, siteStatus)
    ensures r.sites == SitesWithAll(SitesInOrder(SeriesOf(response)), SeriesOf(response),
                                    set c | c in ResolveCodes(paramCodes))
  {
    var codes := ResolveCodes(paramCodes);
    var query := SiteQuery(codes, stateCode, siteType, siteStatus);
    var series := SeriesOf(response);
    var sitesDict, keyOrder := GroupBySite(series);
    var sitesWithAll := KeepSitesWithAll(keyOrder, sitesDict, series, set c | c in codes);
    r := SiteSearch(StationConfig.USGS_API_BASE_URL, query, sitesWithAll);
  }

  /** The loop filling `sites_dict`: each site's set of codes, and the dict's key order. */
  method GroupBySite(series: seq<TimeSeries>) returns (sitesDict: map<string, set<string>>, keyOrder: seq<string>)
    ensures keyOrder == SitesInOrder(series)
    ensures sitesDict.Keys == set s | s in keyOrder
    ensures forall s :: s in sitesDict ==> sitesDict[s] == CodesAt(series, s)
  {
    sitesDict, keyOrder := map[], [];
    var i := 0;
    while i < |series|
      invariant 0 <= i <= |series|
      invariant Grouped(series[..i], sitesDict, keyOrder)
    {
      ghost var before, order := sitesDict, keyOrder;
      var siteId := series[i].siteCode;
      var param := series[i].variableCode;
      if siteId !in sitesDict {
        sitesDict := sitesDict[siteId := {}];
        keyOrder := keyOrder + [siteId];
      }
      sitesDict := sitesDict[siteId := sitesDict[siteId] + {param}];
      GroupedExtend(series[..i], series[i], before, order);
      assert series[..i + 1] == series[..i] + [series[i]];
      i := i + 1;
    }
    assert series[..i] == series;
  }

  /** `sitesDict` and its key order after the series `prefix` have been read. */
  ghost predicate Grouped(prefix: seq<TimeSeries>, sitesDict: map<string, set<string>>, keyOrder: seq<string>)
  {
    && keyOrder == SitesInOrder(prefix)
    && sitesDict.Keys == (set s | s in keyOrder)
    && forall s :: s in sitesDict ==> sitesDict[s] == CodesAt(prefix, s)
  }

  /** One turn of the grouping loop keeps `Grouped`. */
  lemma GroupedExtend(prefix: seq<TimeSeries>, t: TimeSeries, sitesDict: map<string, set<string>>, keyOrder: seq<string>)
    requires Grouped(prefix, sitesDict, keyOrder)
    ensures var d := if t.siteCode in sitesDict then sitesDict else sitesDict[t.siteCode := {}];
      var o := if t.siteCode in sitesDict then keyOrder else keyOrder + [t.siteCode];
      Grouped(prefix + [t], d[t.siteCode := d[t.siteCode] + {t.variableCode}], o)
  {
    var ext := prefix + [t];
    assert ext[..|ext| - 1] == prefix;
    var d := if t.siteCode in sitesDict then sitesDict else sitesDict[t.siteCode := {}];
    var d1 := d[t.siteCode := d[t.siteCode] + {t.variableCode}];
    forall s | s in d1 ensures d1[s] == CodesAt(ext, s) {
      CodesAtExtend(prefix, t, s);
    }
  }

  /** The comprehension keeping the sites whose code set includes every desired code. */
  method KeepSitesWithAll(keyOrder: seq<string>, sitesDict: map<string, set<string>>,
                          ghost series: seq<TimeSeries>, desired: set<string>) returns (sites: seq<string>)
    requires forall s :: s in keyOrder ==> s in sitesDict && sitesDict[s] == CodesAt(series, s)
    ensures sites == SitesWithAll(keyOrder, series, desired)
  {
    sites := [];
    var k := 0;
    while k < |keyOrder|
      invariant 0 <= k <= |keyOrder|
      invariant sites + SitesWithAll(keyOrder[k..], series, desired) == SitesWithAll(keyOrder, series, desired)
    {
      assert keyOrder[k] in keyOrder;
      assert keyOrder[k..][1..] == keyOrder[k + 1..];
      if desired <= sitesDict[keyOrder[k]] {
        sites := sites + [keyOrder[k]];
      }
      k := k + 1;
    }
  }

  lemma CodesAtExtend(series: seq<TimeSeries>, t: TimeSeries, s: string)
    ensures CodesAt(series + [t], s) == CodesAt(series, s) + (if t.siteCode == s then {t.variableCode} else {})
  {
    var ext := series + [t];
    assert forall k :: 0 <= k < |series| ==> ext[k] == series[k];
    assert ext[|series|] == t;
  }

  // ----- properties of the site filter -----

  /** Index of the first series reporting `site`. */
  function FirstIndex(series: seq<TimeSeries>, site: string): (k: nat)
    requires exists k :: 0 <= k < |series| && series[k].siteCode == site
    ensures k < |series| && series[k].siteCode == site
    ensures forall j :: 0 <= j < k ==> series[j].siteCode != site
  {
    if series[0].siteCode == site then 0
    else
      assert exists k :: 0 <= k < |series[1..]| && series[1..][k].siteCode == site by {
        var k :| 0 <= k < |series| && series[k].siteCode == site;
        assert series[1..][k - 1] == series[k];
      }
      1 + FirstIndex(series[1..], site)
  }

  /** Sites come in the order of their first appearance in the series. */
  lemma {:induction false} SitesInOrderByFirstAppearance(series: seq<TimeSeries>, i: int, j: int)
    requires 0 <= i < j < |SitesInOrder(series)|
    ensures SitesInOrder(series)[i] in SitesInOrder(series) && SitesInOrder(series)[j] in SitesInOrder(series)
    ensures FirstIndex(series, SitesInOrder(series)[i]) < FirstIndex(series, SitesInOrder(series)[j])
  {
    var init := series[..|series| - 1];
    var last := series[|series| - 1];
    var order := SitesInOrder(series);
    var a, b := order[i], order[j];
    assert forall k :: 0 <= k < |init| ==> init[k] == series[k];
    if j < |SitesInOrder(init)| {
      SitesInOrderByFirstAppearance(init, i, j);
      FirstIndexPrefix(init, series, a);
      FirstIndexPrefix(init, series, b);
    } else {
      // b is the last site, new in the last series; a appeared before it
      assert b == last.siteCode && b !in SitesInOrder(init);
      assert a in SitesInOrder(init);
      FirstIndexPrefix(init, series, a);
      assert FirstIndex(series, b) == |series| - 1;
    }
  }

  lemma FirstIndexPrefix(init: seq<TimeSeries>, series: seq<TimeSeries>, site: string)
    requires init <= series
    requires exists k :: 0 <= k < |init| && init[k].siteCode == site
    ensures exists k :: 0 <= k < |series| && series[k].siteCode == site
    ensures FirstIndex(series, site) == FirstIndex(init, site)
  {
    var k :| 0 <= k < |init| && init[k].siteCode == site;
    assert series[k] == init[k];
    assert forall j :: 0 <= j < |init| ==> series[j] == init[j];
  }

  /** The filter returns exactly the sites seen in the response whose codes
      include every requested code, each once, in first-appearance order. */
  lemma FindSitesResult(codes: seq<string>, response: SiteResponse, site: string)
    ensures var series := SeriesOf(response);
      var r := SitesWithAll(SitesInOrder(series), series, set c | c in codes);
      && (site in r <==> (exists k :: 0 <= k < |series| && series[k].siteCode == site)
                         && forall c :: c in codes ==> c in CodesAt(series, site))
      && (forall i, j :: 0 <= i < j < |r| ==> r[i] != r[j])
  {
    var series := SeriesOf(response);
    SitesWithAllNoRepeats(SitesInOrder(series), series, set c | c in codes);
  }

  lemma {:induction false} SitesWithAllNoRepeats(order: seq<string>, series: seq<TimeSeries>, desired: set<string>)
    requires forall i, j :: 0 <= i < j < |order| ==> order[i] != order[j]
    ensures var r := SitesWithAll(order, series, desired);
      forall i, j :: 0 <= i < j < |r| ==> r[i] != r[j]
  {
    if order != [] {
      SitesWithAllNoRepeats(order[1..], series, desired);
      assert order[0] !in order[1..];
      assert order[0] !in SitesWithAll(order[1..], series, desired);
    }
  }

  /** The filter keeps the relative order of the sites it keeps. */
  lemma {:induction false} SitesWithAllKeepsOrder(order: seq<string>, series: seq<TimeSeries>, desired: set<string>, i: int, j: int)
    requires 0 <= i < j < |SitesWithAll(order, series, desired)|
    ensures exists a, b :: 0 <= a < b < |order| && order[a] == SitesWithAll(order, series, desired)[i]
                                              && order[b] == SitesWithAll(order, series, desired)[j]
  {
    var r, rest := SitesWithAll(order, series, desired), SitesWithAll(order[1..], series, desired);
    var kept := desired <= CodesAt(series, order[0]);
    SitesWithAllUnfold(order, series, desired);
    if kept && i == 0 {
      assert rest[j - 1] in rest;
      var b :| 0 <= b < |order[1..]| && order[1..][b] == rest[j - 1];
      assert order[b + 1] == r[j];
    } else {
      var i', j' := if kept then i - 1 else i, if kept then j - 1 else j;
      assert r[i] == rest[i'] && r[j] == rest[j'];
      SitesWithAllKeepsOrder(order[1..], series, desired, i', j');
      var a, b :| 0 <= a < b < |order[1..]| && order[1..][a] == rest[i'] && order[1..][b] == rest[j'];
      assert order[a + 1] == r[i] && order[b + 1] == r[j];
    }
  }

  lemma SitesWithAllUnfold(order: seq<string>, series: seq<TimeSeries>, desired: set<string>)
    requires order != []
    ensures SitesWithAll(order, series, desired) ==
      (if desired <= CodesAt(series, order[0]) then [order[0]] else []) + SitesWithAll(order[1..], series, desired)
  {
  }

  /** The returned sites come in the order of their first appearance in the response. */
  lemma FindSitesOrder(codes: seq<string>, response: SiteResponse, i: int, j: int)
    requires var series := SeriesOf(response);
      0 <= i < j < |SitesWithAll(SitesInOrder(series), series, set c | c in codes)|
    ensures var series := SeriesOf(response);
      var r := SitesWithAll(SitesInOrder(series), series, set c | c in codes);
      && r[i] in SitesInOrder(series) && r[j] in SitesInOrder(series)
      && FirstIndex(series, r[i]) < FirstIndex(series, r[j])
  {
    var series := SeriesOf(response);
    var order := SitesInOrder(series);
    var desired := set c | c in codes;
    SitesWithAllKeepsOrder(order, series, desired, i, j);
    var r := SitesWithAll(order, series, desired);
    var a, b :| 0 <= a < b < |order| && order[a] == r[i] && order[b] == r[j];
    SitesInOrderByFirstAppearance(series, a, b);
  }

  /** An empty request list keeps every site the response mentions. */
  lemma EmptyRequestKeepsAllSites(response: SiteResponse)
    ensures var series := SeriesOf(response);
      SitesWithAll(SitesInOrder(series), series, set c | c in []) == SitesInOrder(series)
  {
    var series := SeriesOf(response);
    assert (set c: string | c in []) == {};
    SitesWithAllEmpty(SitesInOrder(series), series);
  }

  lemma {:induction false} SitesWithAllEmpty(order: seq<string>, series: seq<TimeSeries>)
    ensures SitesWithAll(order, series, {}) == order
  {
    if order != [] {
      SitesWithAllEmpty(order[1..], series);
      assert [order[0]] + order[1..] == order;
    }
  }

  /** A response without `value` or `timeSeries` yields no sites. */
  lemma MissingSeriesGivesNoSites(response: SiteResponse, desired: set<string>)
    requires response.value.None? || response.value.value.timeSeries.None?
    ensures SitesWithAll(SitesInOrder(SeriesOf(response)), SeriesOf(response), desired) == []
  {
  }
}
