/** AnalyticsService: period filtering, the dashboard chart buckets and
    labels, and the grouped top-N queries. */
module AnalyticsServices {
  import opened Base
  import opened Calendar
  import opened Grouping
  import opened TrafficSource
  import opened AnalyticsModels

  // ---------------------------------------------------------------------
  // Counts per period
  // ---------------------------------------------------------------------

  /** get_views_by_period(qs, p) is the size of _filter_by_period(qs, p). */
  lemma ViewsByPeriodIsFilterCount(rows: seq<PageView>, c: Clock, period: string)
    ensures ViewsByPeriod(rows, c, period) == |FilterByPeriod(rows, c, period)|
  {
    var inP := (v: PageView) => InPeriod(c, period, v.date);
    FilterLength(rows, inP);
    if !KnownPeriod(period) {
      UnknownPeriodKeepsAll(rows, c, period);
    } else if period == "today" {
      CountWhereSame(rows, (v: PageView) => v.date == c.today, inP);
    } else if period == "week" {
      var start := SubDays(c.today, c.weekday);
      CountWhereSame(rows, (v: PageView) => AtOrBefore(start, v.date), inP);
    } else if period == "month" {
      var start := FirstOfMonth(c.today);
      CountWhereSame(rows, (v: PageView) => AtOrBefore(start, v.date), inP);
    } else {
      var start := FirstOfYear(c.today);
      CountWhereSame(rows, (v: PageView) => AtOrBefore(start, v.date), inP);
    }
  }

  /** The per-source counts add up to the number of views in the period. */
  lemma TrafficSourcesTotal(rows: seq<PageView>, c: Clock, period: string)
    ensures Total(TrafficSources(rows, c, period)) == ViewsByPeriod(rows, c, period)
  {
    GroupingTotal(SourceKeys(FilterByPeriod(rows, c, period)), TrafficSources(rows, c, period));
    ViewsByPeriodIsFilterCount(rows, c, period);
  }

  // ---------------------------------------------------------------------
  // Grouped top-N queries
  // ---------------------------------------------------------------------

  function PageKeys(rows: seq<PageView>): (r: seq<(string, string)>)
    ensures |r| == |rows|
    ensures forall i :: 0 <= i < |rows| ==> r[i] == (rows[i].pageUrl, rows[i].pageTitle)
  {
    Project(rows, (v: PageView) => (v.pageUrl, v.pageTitle))
  }

  /** get_top_pages: views per (page_url, page_title) in the period,
      largest first, at most `limit` of them. */
  function GetTopPages(rows: seq<PageView>, c: Clock, period: string, limit: nat): (r: seq<((string, string), nat)>)
    ensures IsTop(PageKeys(FilterByPeriod(rows, c, period)), r, limit)
  {
    Top(PageKeys(FilterByPeriod(rows, c, period)), limit)
  }

  /** A location field that counts: present, non-empty and not 'Local'. */
  predicate KnownPlace(f: Option<string>) {
    f.Some? && f.value != "" && f.value != "Local"
  }

  function CountryKeys(rows: seq<PageView>): (r: seq<string>)
    ensures |r| <= |rows|
    ensures forall i :: 0 <= i < |r| ==> r[i] != "" && r[i] != "Local"
  {
    var known := Filter(rows, (v: PageView) => KnownPlace(v.country));
    Project(known, (v: PageView) => if v.country.Some? then v.country.value else "")
  }

  function CityKeys(rows: seq<PageView>): (r: seq<(string, Option<string>)>)
    ensures |r| <= |rows|
    ensures forall i :: 0 <= i < |r| ==> r[i].0 != "" && r[i].0 != "Local"
  {
    var known := Filter(rows, (v: PageView) => KnownPlace(v.city));
    Project(known, (v: PageView) => (if v.city.Some? then v.city.value else "", v.region))
  }

  /** f"{city}, {region}" when the region is non-empty, else the city. */
  function PlaceName(city: string, region: Option<string>): (name: string)
    ensures region.Some? && region.value != "" ==> name == city + ", " + region.value
    ensures region.None? || region.value == "" ==> name == city
  {
    if region.Some? && region.value != "" then city + ", " + region.value else city
  }

  /** The name a (city, region) group is shown under. */
  function CityName(k: (string, Option<string>)): string {
    PlaceName(k.0, k.1)
  }

  /** r is a top-ten ranking of the (city, region) keys of rows, each
      entry then shown under its name. */
  ghost predicate IsCityTop(rows: seq<PageView>, r: seq<(string, nat)>) {
    exists t :: IsTop(CityKeys(rows), t, 10) && r == Relabel(t, CityName)
  }

  /** The ten largest country groups. */
  function CountryData(rows: seq<PageView>): (r: seq<(string, nat)>)
    ensures |r| <= 10 && SortedByCount(r)
    ensures forall i :: 0 <= i < |r| ==> r[i].0 != "" && r[i].0 != "Local" && r[i].1 > 0
    ensures IsTop(CountryKeys(rows), r, 10)
  {
    var keys := CountryKeys(rows);
    var t := Top(keys, 10);
    KeysInherit(keys, t, (k: string) => k != "" && k != "Local");
    t
  }

  /** The ten largest (city, region) groups, each named "city, region". */
  function CityData(rows: seq<PageView>): (r: seq<(string, nat)>)
    ensures |r| <= 10 && SortedByCount(r)
    ensures forall i :: 0 <= i < |r| ==> r[i].0 != "" && r[i].0 != "Local" && r[i].1 > 0
    ensures IsCityTop(rows, r)
  {
    var keys := CityKeys(rows);
    var t := Top(keys, 10);
    KeysInherit(keys, t, (k: (string, Option<string>)) => k.0 != "" && k.0 != "Local");
    var r := Relabel(t, CityName);
    forall i | 0 <= i < |r| ensures r[i].0 != "" && r[i].0 != "Local" && r[i].1 > 0 {
      assert t[i].0 in keys && t[i].1 == Count(keys, t[i].0);
      NameWithRegionNotLocal(t[i].0.0, t[i].0.1);
    }
    r
  }

  /** get_location_data: ten largest groups of countries, or of
      (city, region) pairs named "city, region", in the period. */
  function GetLocationData(rows: seq<PageView>, c: Clock, locationType: string): (r: seq<(string, nat)>)
    ensures |r| <= 10 && SortedByCount(r)
    ensures forall i :: 0 <= i < |r| ==> r[i].0 != "" && r[i].0 != "Local" && r[i].1 > 0
    ensures locationType == "countries" ==> IsTop(CountryKeys(rows), r, 10)
    ensures locationType != "countries" ==> IsCityTop(rows, r)
  {
    if locationType == "countries" then CountryData(rows) else CityData(rows)
  }

  lemma NameWithRegionNotLocal(city: string, region: Option<string>)
    requires city != "" && city != "Local"
    ensures PlaceName(city, region) != "" && PlaceName(city, region) != "Local"
  {
    if region.Some? && region.value != "" {
      var n := PlaceName(city, region);
      assert n[|city|] == ',';
      assert "Local"[1] != ',' && "Local"[2] != ',' && "Local"[3] != ',' && "Local"[4] != ',';
      assert |n| >= 4;
      if |n| == 5 { assert |city| <= 2; }
    }
  }

  /** The location query over the rows of the period. */
  function LocationData(rows: seq<PageView>, c: Clock, locationType: string, period: string): (r: seq<(string, nat)>)
    ensures |r| <= 10
    ensures forall i :: 0 <= i < |r| ==> r[i].0 != "" && r[i].0 != "Local"
    ensures locationType == "countries" ==> IsTop(CountryKeys(FilterByPeriod(rows, c, period)), r, 10)
    ensures locationType != "countries" ==> IsCityTop(FilterByPeriod(rows, c, period), r)
  {
    GetLocationData(FilterByPeriod(rows, c, period), c, locationType)
  }

  /** referrer_domain of a row that names a referrer: not direct and with
      a non-empty domain. */
  predicate IsReferred(v: PageView) {
    v.trafficSource != Direct && v.referrerDomain.Some? && v.referrerDomain.value != ""
  }

  function ReferrerKeys(rows: seq<PageView>): (r: seq<(string, string)>)
    ensures forall i :: 0 <= i < |r| ==> r[i].0 != "" && r[i].1 != "direct"
  {
    var referred := Filter(rows, IsReferred);
    var r := Project(referred, (v: PageView) =>
      (if v.referrerDomain.Some? then v.referrerDomain.value else "", SourceKey(v.trafficSource)));
    forall i | 0 <= i < |r| ensures r[i].1 != "direct" {
      assert IsReferred(referred[i]);
    }
    r
  }

  /** get_top_referrers: (referrer_domain, traffic_source) groups of
      non-direct rows with a domain, largest first, at most `limit`. */
  function GetTopReferrers(rows: seq<PageView>, c: Clock, period: string, limit: nat): (r: seq<((string, string), nat)>)
    ensures IsTop(ReferrerKeys(FilterByPeriod(rows, c, period)), r, limit)
    ensures forall i :: 0 <= i < |r| ==> r[i].0.0 != "" && r[i].0.1 != "direct"
  {
    var keys := ReferrerKeys(FilterByPeriod(rows, c, period));
    var r := Top(keys, limit);
    KeysInherit(keys, r, (k: (string, string)) => k.0 != "" && k.1 != "direct");
    r
  }

  // ---------------------------------------------------------------------
  // get_chart_data
  // ---------------------------------------------------------------------

  /** A label is text, or the dates a strftime label is rendered from. */
  datatype ChartLabel = Text(text: string) | WeekSpan(start: Date, end: Date) | MonthOf(first: Date)

  datatype ChartPoint = ChartPoint(caption: ChartLabel, value: nat)

  function HourLabel(hour: nat): string
    requires hour < 24
  {
    if hour == 0 then "12am"
    else if hour < 12 then NatToString(hour) + "am"
    else if hour == 12 then "12pm"
    else NatToString(hour - 12) + "pm"
  }

  /** The clock-face number and the half of the day of an hour. */
  function ClockNumber(hour: nat): (n: nat)
    requires hour < 24
    ensures 1 <= n <= 12
  {
    if hour == 0 || hour == 12 then 12 else if hour < 12 then hour else hour - 12
  }

  lemma HourLabelShape(hour: nat)
    requires hour < 24
    ensures HourLabel(hour) == NatToString(ClockNumber(hour)) + (if hour < 12 then "am" else "pm")
  {
    if hour == 0 || hour == 12 {
      assert NatToString(12) == "12";
    }
  }

  /** No two hours of the day share a label. */
  lemma HourLabelInjective(a: nat, b: nat)
    requires a < 24 && b < 24 && HourLabel(a) == HourLabel(b)
    ensures a == b
  {
    HourLabelShape(a);
    HourLabelShape(b);
    var la, lb := HourLabel(a), HourLabel(b);
    var na, nb := NatToString(ClockNumber(a)), NatToString(ClockNumber(b));
    assert la[|la| - 2..] == (if a < 12 then "am" else "pm");
    assert lb[|lb| - 2..] == (if b < 12 then "am" else "pm");
    assert (a < 12) == (b < 12);
    assert la[..|la| - 2] == na && lb[..|lb| - 2] == nb;
    NatToStringInjective(ClockNumber(a), ClockNumber(b));
  }

  function HourCount(rows: seq<PageView>, today: Date, hour: nat): nat {
    CountWhere(rows, (v: PageView) => v.date == today && v.hour == hour)
  }

  /** The 'today' chart: hour by hour, 0 to 23. */
  method HourlyChart(rows: seq<PageView>, c: Clock) returns (data: seq<ChartPoint>)
    ensures |data| == 24
    ensures forall h :: 0 <= h < 24 ==> data[h] == ChartPoint(Text(HourLabel(h)), HourCount(rows, c.today, h))
    ensures forall i, j :: 0 <= i < j < 24 ==> data[i].caption != data[j].caption
  {
    data := [];
    var hour := 0;
    while hour < 24
      invariant 0 <= hour <= 24 && |data| == hour
      invariant forall h :: 0 <= h < hour ==> data[h] == ChartPoint(Text(HourLabel(h)), HourCount(rows, c.today, h))
    {
      var text;
      if hour == 0 {
        text := "12am";
      } else if hour < 12 {
        text := NatToString(hour) + "am";
      } else if hour == 12 {
        text := "12pm";
      } else {
        text := NatToString(hour - 12) + "pm";
      }
      data := data + [ChartPoint(Text(text), HourCount(rows, c.today, hour))];
      hour := hour + 1;
    }
    forall i, j | 0 <= i < j < 24 ensures data[i].caption != data[j].caption {
      if HourLabel(i) == HourLabel(j) { HourLabelInjective(i, j); }
    }
  }

  /** The i-th week back: the 7 days ending 7 * i days before today. */
  function WeekEnd(c: Clock, i: nat): Date {
    SubDays(c.today, 7 * i)
  }

  function WeekStart(c: Clock, i: nat): Date {
    SubDays(WeekEnd(c, i), 6)
  }

  function RangeCount(rows: seq<PageView>, start: Date, end: Date): nat {
    CountWhere(rows, (v: PageView) => AtOrBefore(start, v.date) && AtOrBefore(v.date, end))
  }

  /** The 'week' chart: four rolling 7-day windows, oldest first. */
  method WeeklyChart(rows: seq<PageView>, c: Clock) returns (data: seq<ChartPoint>)
    ensures |data| == 4
    ensures forall j :: 0 <= j < 4 ==>
              data[j] == ChartPoint(WeekSpan(WeekStart(c, 3 - j), WeekEnd(c, 3 - j)),
                                    RangeCount(rows, WeekStart(c, 3 - j), WeekEnd(c, 3 - j)))
  {
    data := [];
    var i := 3;
    while i >= 0
      invariant -1 <= i <= 3 && |data| == 3 - i
      invariant forall j :: 0 <= j < |data| ==>
                  data[j] == ChartPoint(WeekSpan(WeekStart(c, 3 - j), WeekEnd(c, 3 - j)),
                                        RangeCount(rows, WeekStart(c, 3 - j), WeekEnd(c, 3 - j)))
    {
      var weekEnd := SubDays(c.today, i * 7);
      var weekStart := SubDays(weekEnd, 6);
      data := data + [ChartPoint(WeekSpan(weekStart, weekEnd), RangeCount(rows, weekStart, weekEnd))];
      i := i - 1;
    }
  }

  /** The last window ends today. */
  lemma LastWeekEndsToday(c: Clock)
    ensures WeekEnd(c, 0) == c.today
  {
    SubDaysZero(c.today);
  }

  /** Every window starts six days before it ends. */
  lemma WeekWindowSpan(c: Clock, i: nat)
    ensures WeekStart(c, i) == SubDays(c.today, 7 * i + 6)
    ensures Before(WeekStart(c, i), WeekEnd(c, i))
  {
    SubDaysAdditive(c.today, 7 * i, 6);
    SubDaysMonotone(c.today, 7 * i, 7 * i + 6);
  }

  /** Consecutive windows touch: the newer one starts the day after the
      older one ends, so they neither overlap nor leave a gap. */
  lemma WeekWindowsContiguous(c: Clock, i: nat)
    ensures AddDays(WeekEnd(c, i + 1), 1) == WeekStart(c, i)
    ensures Before(WeekEnd(c, i + 1), WeekStart(c, i))
  {
    WeekWindowSpan(c, i);
    NextAfterSub(c.today, 7 * i + 6);
    SubDaysMonotone(c.today, 7 * i + 6, 7 * (i + 1));
  }

  /** The first day of the month the code computes for step i. */
  function MonthFirst(c: Clock, i: nat): Date {
    FirstOfMonth(SubDays(FirstOfMonth(c.today), 32 * i))
  }

  function NextMonthFirst(c: Clock, i: nat): Date {
    FirstOfMonth(AddDays(MonthFirst(c, i), 32))
  }

  function MonthCount(rows: seq<PageView>, first: Date, next: Date): nat {
    CountWhere(rows, (v: PageView) => AtOrBefore(first, v.date) && Before(v.date, next))
  }

  /** The 'month' chart: six steps of 32 days back from this month's first day. */
  method MonthlyChart(rows: seq<PageView>, c: Clock) returns (data: seq<ChartPoint>)
    ensures |data| == 6
    ensures forall j :: 0 <= j < 6 ==>
              data[j] == ChartPoint(MonthOf(MonthFirst(c, 5 - j)),
                                    MonthCount(rows, MonthFirst(c, 5 - j), NextMonthFirst(c, 5 - j)))
  {
    data := [];
    var i := 5;
    while i >= 0
      invariant -1 <= i <= 5 && |data| == 5 - i
      invariant forall j :: 0 <= j < |data| ==>
                  data[j] == ChartPoint(MonthOf(MonthFirst(c, 5 - j)),
                                        MonthCount(rows, MonthFirst(c, 5 - j), NextMonthFirst(c, 5 - j)))
    {
      var monthDate := FirstOfMonth(SubDays(FirstOfMonth(c.today), 32 * i));
      var nextMonth := FirstOfMonth(AddDays(monthDate, 32));
      data := data + [ChartPoint(MonthOf(monthDate), MonthCount(rows, monthDate, nextMonth))];
      i := i - 1;
    }
  }

  /** Step i lands i + 1 months back, except step 0, which is this month:
      the months shown are M-6, M-5, M-4, M-3, M-2 and M. */
  lemma MonthStepLands(c: Clock, i: nat)
    requires i <= 5
    ensures MonthIndex(MonthFirst(c, i)) == MonthIndex(c.today) - (if i == 0 then 0 else i + 1)
    ensures MonthFirst(c, i).day == 1
  {
    var f := FirstOfMonth(c.today);
    if i == 0 {
      SubDaysZero(f);
    } else {
      ThirtyTwoDayStepsBack(f, i);
    }
  }

  /** The last point is the current month. */
  lemma MonthChartEndsNow(c: Clock)
    ensures MonthFirst(c, 0) == FirstOfMonth(c.today)
  {
    SubDaysZero(FirstOfMonth(c.today));
  }

  /** Each bucket runs from its month's first day to the next month's first
      day, so it holds exactly the dates of that calendar month. */
  lemma MonthBucketIsCalendarMonth(c: Clock, i: nat, d: Date)
    requires i <= 5 && ValidDate(d)
    ensures NextMonthFirst(c, i) == MonthStart(MonthIndex(MonthFirst(c, i)) + 1)
    ensures (AtOrBefore(MonthFirst(c, i), d) && Before(d, NextMonthFirst(c, i)))
              <==> MonthIndex(d) == MonthIndex(MonthFirst(c, i))
  {
    var m := MonthFirst(c, i);
    MonthStepLands(c, i);
    ThirtyTwoDaysOn(m);
    MonthStartOf(AddDays(m, 32));
    MonthStartOf(m);
    MonthStartBounds(MonthIndex(m), d);
  }

  /** The previous calendar month never appears in the month chart. */
  lemma MonthChartSkipsPreviousMonth(c: Clock, i: nat)
    requires i <= 5
    ensures MonthIndex(MonthFirst(c, i)) != MonthIndex(c.today) - 1
  {
    MonthStepLands(c, i);
  }

  /** The 'month' chart as its comment describes it: the last six calendar
      months, this one included, oldest first. */
  method CalendarMonthlyChart(rows: seq<PageView>, c: Clock) returns (data: seq<ChartPoint>)
    ensures |data| == 6
    ensures forall j :: 0 <= j < 6 ==>
              data[j].caption.MonthOf? && MonthIndex(data[j].caption.first) == MonthIndex(c.today) - 5 + j
              && data[j].caption.first.day == 1
              && data[j].value == MonthCount(rows, data[j].caption.first, MonthStart(MonthIndex(c.today) - 4 + j))
  {
    data := [];
    var current := MonthIndex(c.today);
    var i := 5;
    while i >= 0
      invariant -1 <= i <= 5 && |data| == 5 - i
      invariant forall j :: 0 <= j < |data| ==>
                  data[j].caption.MonthOf? && MonthIndex(data[j].caption.first) == current - 5 + j
                  && data[j].caption.first.day == 1
                  && data[j].value == MonthCount(rows, data[j].caption.first, MonthStart(current - 4 + j))
    {
      var monthDate := MonthStart(current - i);
      var nextMonth := MonthStart(current - i + 1);
      data := data + [ChartPoint(MonthOf(monthDate), MonthCount(rows, monthDate, nextMonth))];
      i := i - 1;
    }
  }

  function YearCount(rows: seq<PageView>, year: int): nat {
    CountWhere(rows, (v: PageView) => v.date.year == year)
  }

  /** The 'year' chart: the current year and the two before it. */
  method YearlyChart(rows: seq<PageView>, c: Clock) returns (data: seq<ChartPoint>)
    ensures |data| == 3
    ensures forall j :: 0 <= j < 3 ==>
              data[j] == ChartPoint(Text(IntToString(c.today.year - 2 + j)), YearCount(rows, c.today.year - 2 + j))
  {
    data := [];
    var currentYear := c.today.year;
    var i := 2;
    while i >= 0
      invariant -1 <= i <= 2 && |data| == 2 - i
      invariant forall j :: 0 <= j < |data| ==>
                  data[j] == ChartPoint(Text(IntToString(currentYear - 2 + j)), YearCount(rows, currentYear - 2 + j))
    {
      var year := currentYear - i;
      data := data + [ChartPoint(Text(IntToString(year)), YearCount(rows, year))];
      i := i - 1;
    }
  }

  /** get_chart_data(period): any period other than today, week or month
      draws the year chart. */
  method GetChartData(rows: seq<PageView>, c: Clock, period: string) returns (data: seq<ChartPoint>)
    ensures period == "today" ==>
              |data| == 24
              && forall h :: 0 <= h < 24 ==> data[h] == ChartPoint(Text(HourLabel(h)), HourCount(rows, c.today, h))
    ensures period == "week" ==>
              |data| == 4
              && forall j :: 0 <= j < 4 ==>
                   data[j] == ChartPoint(WeekSpan(WeekStart(c, 3 - j), WeekEnd(c, 3 - j)),
                                         RangeCount(rows, WeekStart(c, 3 - j), WeekEnd(c, 3 - j)))
    ensures period == "month" ==>
              |data| == 6
              && forall j :: 0 <= j < 6 ==>
                   data[j] == ChartPoint(MonthOf(MonthFirst(c, 5 - j)),
                                         MonthCount(rows, MonthFirst(c, 5 - j), NextMonthFirst(c, 5 - j)))
    ensures period != "today" && period != "week" && period != "month" ==>
              |data| == 3
              && forall j :: 0 <= j < 3 ==>
                   data[j] == ChartPoint(Text(IntToString(c.today.year - 2 + j)), YearCount(rows, c.today.year - 2 + j))
  {
    if period == "today" {
      data := HourlyChart(rows, c);
    } else if period == "week" {
      data := WeeklyChart(rows, c);
    } else if period == "month" {
      data := MonthlyChart(rows, c);
    } else {
      data := YearlyChart(rows, c);
    }
  }
}
