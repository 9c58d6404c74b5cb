/** The PageView table and the two AnalyticsManager queries over it.
    Rows are held in a sequence; the clock is given. */
module AnalyticsModels {
  import opened Base
  import opened Calendar
  import opened Grouping
  import opened TrafficSource

  /** PageView.TRAFFIC_SOURCES: stored key and display label. */
  const TrafficSourceChoices: seq<(string, string)> := [
    ("direct", "Direct"),
    ("social", "Social"),
    ("search", "Search Engine"),
    ("referral", "Referral")
  ]

  /** The key stored in traffic_source for each classification. */
  function SourceKey(s: Source): (k: string)
    ensures exists i :: 0 <= i < |TrafficSourceChoices| && TrafficSourceChoices[i].0 == k
  {
    match s
    case Direct => assert TrafficSourceChoices[0].0 == "direct"; "direct"
    case Social => assert TrafficSourceChoices[1].0 == "social"; "social"
    case Search => assert TrafficSourceChoices[2].0 == "search"; "search"
    case Referral => assert TrafficSourceChoices[3].0 == "referral"; "referral"
  }

  /** Reading a stored key back; keys outside the choices have no source. */
  function SourceOfKey(k: string): (r: Option<Source>)
    ensures r.Some? <==> exists i :: 0 <= i < |TrafficSourceChoices| && TrafficSourceChoices[i].0 == k
  {
    if k == "direct" then assert TrafficSourceChoices[0].0 == k; Some(Direct)
    else if k == "social" then assert TrafficSourceChoices[1].0 == k; Some(Social)
    else if k == "search" then assert TrafficSourceChoices[2].0 == k; Some(Search)
    else if k == "referral" then assert TrafficSourceChoices[3].0 == k; Some(Referral)
    else None
  }

  /** Keys and sources are in one-to-one correspondence. */
  lemma SourceKeyRoundTrip(s: Source, k: string)
    ensures SourceOfKey(SourceKey(s)) == Some(s)
    ensures SourceOfKey(k) == Some(s) ==> SourceKey(s) == k
  {
  }

  /** Whatever the referrer, detect_source yields one of the four keys. */
  lemma DetectSourceIsChoice(referrer: string)
    ensures SourceOfKey(SourceKey(DetectSource(referrer))) == Some(DetectSource(referrer))
    ensures exists i :: 0 <= i < |TrafficSourceChoices| && TrafficSourceChoices[i].0 == SourceKey(DetectSource(referrer))
  {
    var s := DetectSource(referrer);
    SourceKeyRoundTrip(s, SourceKey(s));
  }

  /** traffic_source's default when a row is created without one. */
  const DefaultTrafficSource: Source := Direct

  /** One PageView row. The timestamp is kept as its hour of the day. */
  datatype PageView = PageView(
    pageUrl: string,
    pageTitle: string,
    trafficSource: Source,
    referrer: Option<string>,
    ipAddress: string,
    userAgent: string,
    country: Option<string>,
    city: Option<string>,
    region: Option<string>,
    date: Date,
    hour: nat,
    referrerDomain: Option<string>)

  /** timezone.now() as the queries use it: today's date and its weekday
      (Monday = 0), both given. */
  datatype ClockData = ClockData(today: Date, weekday: nat)

  type Clock = c: ClockData | ValidDate(c.today) && 1 <= c.today.year && c.weekday < 7
    witness ClockData(Date(2024, 1, 1), 0)

  /** The filter each period applies to a row's date (analytics/services.py
      _filter_by_period and the same branches in get_traffic_sources).
      Any other period keeps every row. */
  predicate InPeriod(c: Clock, period: string, d: Date) {
    if period == "today" then d == c.today
    else if period == "week" then AtOrBefore(SubDays(c.today, c.weekday), d)
    else if period == "month" then AtOrBefore(FirstOfMonth(c.today), d)
    else if period == "year" then AtOrBefore(FirstOfYear(c.today), d)
    else true
  }

  predicate KnownPeriod(period: string) {
    period == "today" || period == "week" || period == "month" || period == "year"
  }

  /** _filter_by_period(queryset, period). */
  function FilterByPeriod(rows: seq<PageView>, c: Clock, period: string): (r: seq<PageView>)
    ensures forall i :: 0 <= i < |r| ==> r[i] in rows && InPeriod(c, period, r[i].date)
    ensures forall i :: 0 <= i < |rows| && InPeriod(c, period, rows[i].date) ==> rows[i] in r
    ensures multiset(r) <= multiset(rows)
    ensures forall v :: v in rows && InPeriod(c, period, v.date) ==> multiset(r)[v] == multiset(rows)[v]
  {
    FilterMultiset(rows, (v: PageView) => InPeriod(c, period, v.date));
    Filter(rows, (v: PageView) => InPeriod(c, period, v.date))
  }

  /** The rows of the period keep their order: filtering two runs of rows
      one after the other is filtering their concatenation. */
  lemma PeriodKeepsOrder(xs: seq<PageView>, ys: seq<PageView>, c: Clock, period: string)
    ensures FilterByPeriod(xs + ys, c, period) == FilterByPeriod(xs, c, period) + FilterByPeriod(ys, c, period)
  {
    FilterAppend(xs, ys, (v: PageView) => InPeriod(c, period, v.date));
  }

  /** An unknown period returns the queryset unfiltered. */
  lemma UnknownPeriodKeepsAll(rows: seq<PageView>, c: Clock, period: string)
    requires !KnownPeriod(period)
    ensures FilterByPeriod(rows, c, period) == rows
  {
    FilterKeepsAll(rows, (v: PageView) => InPeriod(c, period, v.date));
  }

  /** The week period starts on this week's Monday and so holds today. */
  lemma WeekHoldsToday(c: Clock)
    ensures InPeriod(c, "week", c.today)
  {
    SubDaysNotLater(c.today, c.weekday);
  }

  /** AnalyticsManager.get_views_by_period: a count per branch, without
      building the filtered rows. */
  function ViewsByPeriod(rows: seq<PageView>, c: Clock, period: string): (n: nat)
    ensures n <= |rows|
  {
    if period == "today" then CountWhere(rows, (v: PageView) => v.date == c.today)
    else if period == "week" then
      var start := SubDays(c.today, c.weekday);
      CountWhere(rows, (v: PageView) => AtOrBefore(start, v.date))
    else if period == "month" then
      var start := FirstOfMonth(c.today);
      CountWhere(rows, (v: PageView) => AtOrBefore(start, v.date))
    else if period == "year" then
      var start := FirstOfYear(c.today);
      CountWhere(rows, (v: PageView) => AtOrBefore(start, v.date))
    else |rows|
  }

  /** The traffic_source key of every row. */
  function SourceKeys(rows: seq<PageView>): (r: seq<string>)
    ensures |r| == |rows|
    ensures forall i :: 0 <= i < |rows| ==> r[i] == SourceKey(rows[i].trafficSource)
  {
    Project(rows, (v: PageView) => SourceKey(v.trafficSource))
  }

  /** AnalyticsManager.get_traffic_sources: the filtered rows grouped by
      traffic_source with a count per key. */
  function TrafficSources(rows: seq<PageView>, c: Clock, period: string): (r: seq<(string, nat)>)
    ensures IsGrouping(SourceKeys(FilterByPeriod(rows, c, period)), r)
    ensures forall i :: 0 <= i < |r| ==> SourceOfKey(r[i].0).Some? && r[i].1 > 0
    ensures |r| <= 4
  {
    var keys := SourceKeys(FilterByPeriod(rows, c, period));
    var r := Group(keys);
    KeysInherit(keys, r, (k: string) => SourceOfKey(k).Some?);
    AtMostFourKeys(r);
    r
  }

  /** Distinct traffic-source keys number at most four. */
  lemma AtMostFourKeys(r: seq<(string, nat)>)
    requires KeysDistinct(r)
    requires forall i :: 0 <= i < |r| ==> SourceOfKey(r[i].0).Some?
    ensures |r| <= 4
  {
    var known := {"direct", "social", "search", "referral"};
    assert KeySet(r) <= known by {
      forall k | k in KeySet(r) ensures k in known {
        var i :| 0 <= i < |r| && r[i].0 == k;
      }
    }
    KeySetSize(r);
    SubsetSize(KeySet(r), known);
  }
}
