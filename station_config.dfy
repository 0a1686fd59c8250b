/** Station configuration and the parameter catalog (src/data/station_config.py). */
module StationConfig {
  import opened Wrappers
  import Text

  /** The parameter catalog, code to human-readable label, in declared order.
      The temperature label is kept byte for byte as the source spells it ("Â°C"). */
  const WATER_QUALITY_PARAMS: seq<(string, string)> := [
    ("00010", "Temperature (\U{00C2}\U{00B0}C)"),
    ("00060", "Streamflow (cfs)"),
    ("00095", "Specific Conductance (uS/cm)"),
    ("00300", "Dissolved Oxygen (mg/L)"),
    ("00400", "pH")
  ]

  /** `list(d.keys())` for a dictionary given by its entries in insertion order. */
  function KeysOf(entries: seq<(string, string)>): (r: seq<string>)
    ensures |r| == |entries|
    ensures forall k :: 0 <= k < |entries| ==> r[k] == entries[k].0
  {
    if entries == [] then [] else [entries[0].0] + KeysOf(entries[1..])
  }

  /** `d.get(code)` on a dictionary given by its entries. */
  function LookupIn(entries: seq<(string, string)>, code: string): (r: Option<string>)
    ensures r.Some? <==> exists k :: 0 <= k < |entries| && entries[k].0 == code
    ensures r.Some? ==> exists k :: 0 <= k < |entries| && entries[k] == (code, r.value)
  {
    if entries == [] then None
    else if entries[0].0 == code then Some(entries[0].1)
    else
      var r := LookupIn(entries[1..], code);
      assert forall k :: 0 < k < |entries| ==> entries[k] == entries[1..][k - 1];
      r
  }

  /** The label of a parameter code, `None` (a NaN label) for a code outside the catalog. */
  function Label(code: string): (r: Option<string>)
    ensures r.Some? <==> code in KeysOf(WATER_QUALITY_PARAMS)
    ensures r.Some? ==> exists k :: 0 <= k < |WATER_QUALITY_PARAMS| && WATER_QUALITY_PARAMS[k] == (code, r.value)
  {
    LookupIn(WATER_QUALITY_PARAMS, code)
  }

  const PARAM_CODES: seq<string> := KeysOf(WATER_QUALITY_PARAMS)

  const MONITORING_STATIONS: map<string, map<string, string>> := map[
    "USGS-07374000" := map[
      "name" := "Lake Moultrie Tailrace Canal at Moncks Corner, SC",
      "location" := "South Carolina",
      "state_code" := "SC"],
    "USGS-07381600" := map[
      "name" := "Monitoring Station 2",
      "location" := "Louisiana",
      "state_code" := "LA"]
  ]

  const USGS_API_BASE_URL: string := "https://waterservices.usgs.gov/nwis/iv/"

  const SITE_SEARCH_PARAMS: map<string, string> := map[
    "format" := "json",
    "parameterCd" := Text.Join(PARAM_CODES, ','),
    "siteType" := "ST",
    "siteStatus" := "active"
  ]

  /** The codes are the catalog's keys, in declared order: five distinct codes. */
  lemma ParamCodesAreCatalogKeys()
    ensures PARAM_CODES == ["00010", "00060", "00095", "00300", "00400"]
    ensures |PARAM_CODES| == |WATER_QUALITY_PARAMS| == 5
    ensures forall k :: 0 <= k < 5 ==> PARAM_CODES[k] == WATER_QUALITY_PARAMS[k].0
    ensures forall i, j :: 0 <= i < j < |PARAM_CODES| ==> PARAM_CODES[i] != PARAM_CODES[j]
  {
  }

  /** Exactly the catalog codes have a label, and different codes have different labels. */
  lemma CatalogLabels(code: string, other: string)
    ensures Label(code).Some? <==> code in PARAM_CODES
    ensures Label(code).Some? && Label(other) == Label(code) ==> other == code
  {
    ParamCodesAreCatalogKeys();
  }

  /** No code contains a comma, so the joined `parameterCd` splits back into the code list. */
  lemma SiteSearchCodesSplitBack()
    ensures forall k :: 0 <= k < |PARAM_CODES| ==> ',' !in PARAM_CODES[k]
    ensures Text.Split(SITE_SEARCH_PARAMS["parameterCd"], ',') == PARAM_CODES
  {
    ParamCodesAreCatalogKeys();
    Text.SplitJoin(PARAM_CODES, ',');
  }

  /** Site search asks for active stream sites in JSON. */
  lemma SiteSearchCriteria()
    ensures SITE_SEARCH_PARAMS.Keys == {"format", "parameterCd", "siteType", "siteStatus"}
    ensures SITE_SEARCH_PARAMS["siteType"] == "ST" && SITE_SEARCH_PARAMS["siteStatus"] == "active"
    ensures SITE_SEARCH_PARAMS["format"] == "json"
  {
  }

  /** Every monitoring station has a name, a location and a state code. */
  lemma StationsAreComplete()
    ensures |MONITORING_STATIONS| == 2
    ensures forall site :: site in MONITORING_STATIONS ==>
      MONITORING_STATIONS[site].Keys == {"name", "location", "state_code"}
  {
  }
}
