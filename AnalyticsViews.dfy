/** The dashboard's JSON endpoints: defaulting and normalising the query
    parameters, and the traffic-source drill-down. A missing GET parameter
    is None. */
module AnalyticsViews {
  import opened Base
  import opened Grouping
  import opened TrafficSource
  import opened AnalyticsModels
  import opened AnalyticsServices

  function GetOr(param: Option<string>, default: string): (r: string)
    ensures param.None? ==> r == default
    ensures param.Some? ==> r == param.value
  {
    if param.Some? then param.value else default
  }

  /** period = GET.get('period', 'week'), replaced by 'week' when it is
      not one of the four periods (dashboard_data, traffic_data, location_data). */
  function NormalizePeriod(param: Option<string>): (p: string)
    ensures KnownPeriod(p)
    ensures param.Some? && KnownPeriod(param.value) ==> p == param.value
    ensures param.None? || !KnownPeriod(param.value) ==> p == "week"
  {
    var p := GetOr(param, "week");
    if p == "today" || p == "week" || p == "month" || p == "year" then p else "week"
  }

  predicate KnownLocationType(t: string) {
    t == "countries" || t == "regions"
  }

  /** type = GET.get('type', 'countries'), replaced by 'countries' when it
      is neither 'countries' nor 'regions'. */
  function NormalizeLocationType(param: Option<string>): (t: string)
    ensures KnownLocationType(t)
    ensures param.Some? && KnownLocationType(param.value) ==> t == param.value
    ensures param.None? || !KnownLocationType(param.value) ==> t == "countries"
  {
    var t := GetOr(param, "countries");
    if t == "countries" || t == "regions" then t else "countries"
  }

  /** location_data: the location query on normalised parameters. */
  function LocationDataView(rows: seq<PageView>, c: Clock, typeParam: Option<string>, periodParam: Option<string>): (r: seq<(string, nat)>)
    ensures |r| <= 10
    ensures NormalizeLocationType(typeParam) == "countries" ==>
              IsTop(CountryKeys(FilterByPeriod(rows, c, NormalizePeriod(periodParam))), r, 10)
    ensures NormalizeLocationType(typeParam) == "regions" ==>
              IsCityTop(FilterByPeriod(rows, c, NormalizePeriod(periodParam)), r)
  {
    LocationData(rows, c, NormalizeLocationType(typeParam), NormalizePeriod(periodParam))
  }

  predicate IsDirect(v: PageView) {
    v.trafficSource == Direct
  }

  /** The page titles of the direct rows, in order. */
  function DirectTitles(rows: seq<PageView>): (r: seq<string>)
    ensures var direct := Filter(rows, IsDirect);
      |r| == |direct| && forall i :: 0 <= i < |direct| ==> r[i] == direct[i].pageTitle
  {
    Project(Filter(rows, IsDirect), (v: PageView) => v.pageTitle)
  }

  /** The title a direct group is shown under: 'Homepage' for an empty one. */
  function ShownTitle(title: string): (shown: string)
    ensures shown != ""
    ensures title != "" ==> shown == title
  {
    if title == "" then "Homepage" else title
  }

  /** r is a top-ten ranking of the direct rows' titles, each entry then
      shown under ShownTitle. */
  ghost predicate IsDirectTop(rows: seq<PageView>, r: seq<(string, nat)>) {
    exists t :: IsTop(DirectTitles(rows), t, 10) && r == Relabel(t, ShownTitle)
  }

  predicate HasDomain(v: PageView) {
    v.referrerDomain.Some? && v.referrerDomain.value != ""
  }

  /** The referrer domains of the rows stored under `key`. */
  function DomainsOf(rows: seq<PageView>, key: string): (r: seq<string>)
    ensures forall i :: 0 <= i < |r| ==> r[i] != ""
  {
    var rs := Filter(rows, (v: PageView) => SourceKey(v.trafficSource) == key && HasDomain(v));
    var r := Project(rs, (v: PageView) => if v.referrerDomain.Some? then v.referrerDomain.value else "");
    forall i | 0 <= i < |r| ensures r[i] != "" {
      assert HasDomain(rs[i]);
    }
    r
  }

  /** The drill-down on rows already restricted to the period: direct rows
      grouped by page title (an empty title shown as 'Homepage'), any other
      key grouped by referrer domain; ten largest groups. */
  function SourceBreakdown(rows: seq<PageView>, sourceType: string): (r: seq<(string, nat)>)
    ensures |r| <= 10 && SortedByCount(r)
    ensures forall i :: 0 <= i < |r| ==> r[i].0 != "" && r[i].1 > 0
    ensures sourceType == "direct" ==> IsDirectTop(rows, r)
    ensures sourceType != "direct" ==> IsTop(DomainsOf(rows, sourceType), r, 10)
  {
    if sourceType == "direct" then
      var t := Top(DirectTitles(rows), 10);
      var r := Relabel(t, ShownTitle);
      assert forall i :: 0 <= i < |r| ==> r[i].1 == Count(DirectTitles(rows), t[i].0) && t[i].0 in DirectTitles(rows);
      r
    else
      var keys := DomainsOf(rows, sourceType);
      var r := Top(keys, 10);
      KeysInherit(keys, r, (k: string) => k != "");
      r
  }

  /** traffic_sources_detail: type defaults to 'search' and period to
      'week', and neither is normalised. */
  function TrafficSourcesDetail(rows: seq<PageView>, c: Clock, typeParam: Option<string>, periodParam: Option<string>): (r: seq<(string, nat)>)
    ensures |r| <= 10
    ensures var inPeriod := FilterByPeriod(rows, c, GetOr(periodParam, "week"));
      var sourceType := GetOr(typeParam, "search");
      && (sourceType == "direct" ==> IsDirectTop(inPeriod, r))
      && (sourceType != "direct" ==> IsTop(DomainsOf(inPeriod, sourceType), r, 10))
  {
    SourceBreakdown(FilterByPeriod(rows, c, GetOr(periodParam, "week")), GetOr(typeParam, "search"))
  }

  /** An unknown period is passed through and aggregates every row. */
  lemma DetailUnknownPeriodUsesAllRows(rows: seq<PageView>, c: Clock, typeParam: Option<string>, period: string)
    requires !KnownPeriod(period)
    ensures TrafficSourcesDetail(rows, c, typeParam, Some(period)) == SourceBreakdown(rows, GetOr(typeParam, "search"))
  {
    UnknownPeriodKeepsAll(rows, c, period);
  }

  /** A type that is no traffic-source key matches no row. */
  lemma {:induction false} UnknownTypeIsEmpty(rows: seq<PageView>, sourceType: string)
    requires sourceType != "direct" && SourceOfKey(sourceType).None?
    ensures SourceBreakdown(rows, sourceType) == []
  {
    var keys := DomainsOf(rows, sourceType);
    var rs := Filter(rows, (v: PageView) => SourceKey(v.trafficSource) == sourceType && HasDomain(v));
    if rs != [] {
      SourceKeyRoundTrip(rs[0].trafficSource, sourceType);
    }
    assert |keys| == 0;
  }
}
