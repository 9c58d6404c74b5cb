/** AnalyticsMiddleware: which responses are recorded as page views, the
    in-process (ip, path) deduplication cache, and the fields of the
    recorded view. The clock, the ip-api lookup and the outcome of the
    database write are given to each call. */
module AnalyticsMiddleware {
  import opened Base
  import opened Calendar
  import opened TrafficSource
  import opened AnalyticsModels

  datatype User = Anonymous | Authenticated(isStaff: bool, isSuperuser: bool, groups: seq<string>)

  /** The parts of a request the middleware reads; meta is request.META. */
  datatype Request = Request(httpMethod: string, path: string, user: User, meta: map<string, string>)

  datatype Response = Response(statusCode: int, body: string)

  /** dict.get(key, default) on request.META. */
  function MetaGet(meta: map<string, string>, key: string, default: string): (r: string)
    ensures key in meta ==> r == meta[key]
    ensures key !in meta ==> r == default
  {
    if key in meta then meta[key] else default
  }

  const SkipPrefixes: seq<string> := ["/admin/", "/static/", "/media/", "/api/", "/analytics/", "/dashboard/"]

  predicate HasSkipPrefix(path: string) {
    exists k :: 0 <= k < |SkipPrefixes| && SkipPrefixes[k] <= path
  }

  /** Staff, superusers and members of the Administrator or Author group. */
  predicate IsSiteStaff(u: User) {
    u.Authenticated? && (u.isStaff || u.isSuperuser || "Administrator" in u.groups || "Author" in u.groups)
  }

  /** The alternatives of BOT_PATTERN, lowercased for the case-insensitive match. */
  const BotWords: seq<string> := [
    "bot", "crawler", "spider", "slurp", "facebookexternalhit", "twitterbot",
    "python-requests", "curl", "wget", "headless", "chrome-lighthouse",
    "lighthouse", "prerender", "googlebot", "bingbot", "yandexbot", "duckduckbot"
  ]

  /** BOT_PATTERN.search(user_agent) with re.IGNORECASE. */
  predicate IsBot(userAgent: string) {
    ContainsAny(Lower(userAgent), BotWords)
  }

  function UserAgent(req: Request): string {
    MetaGet(req.meta, "HTTP_USER_AGENT", "")
  }

  /** The filter chain ahead of the cache: a response that is not recorded
      whatever the cache holds. */
  predicate Ignored(req: Request, resp: Response) {
    req.httpMethod != "GET" || resp.statusCode != 200
    || HasSkipPrefix(req.path)
    || IsSiteStaff(req.user)
    || UserAgent(req) == "" || IsBot(UserAgent(req))
  }

  /** get_client_ip: the first X-Forwarded-For entry, stripped, when that
      header is non-empty; otherwise REMOTE_ADDR, by default 127.0.0.1. */
  function ClientIp(meta: map<string, string>): (ip: string)
    ensures "HTTP_X_FORWARDED_FOR" in meta && meta["HTTP_X_FORWARDED_FOR"] != "" ==>
              ip == Strip(BeforeFirst(meta["HTTP_X_FORWARDED_FOR"], ','))
    ensures ("HTTP_X_FORWARDED_FOR" !in meta || meta["HTTP_X_FORWARDED_FOR"] == "") ==>
              ip == MetaGet(meta, "REMOTE_ADDR", "127.0.0.1")
  {
    if "HTTP_X_FORWARDED_FOR" in meta && meta["HTTP_X_FORWARDED_FOR"] != "" then
      Strip(BeforeFirst(meta["HTTP_X_FORWARDED_FOR"], ','))
    else
      MetaGet(meta, "REMOTE_ADDR", "127.0.0.1")
  }

  /** The client address never holds a comma when it comes from the
      forwarded header. */
  lemma ForwardedIpHasNoComma(meta: map<string, string>)
    requires "HTTP_X_FORWARDED_FOR" in meta && meta["HTTP_X_FORWARDED_FOR"] != ""
    ensures ',' !in ClientIp(meta)
  {
    var b := BeforeFirst(meta["HTTP_X_FORWARDED_FOR"], ',');
    var t := TrimLeft(b);
    var r := TrimRight(t);
    assert forall c :: c in r ==> c in t;
    assert forall c :: c in t ==> c in b;
  }

  datatype Location = Location(country: string, city: string, region: string)

  /** The addresses get_location_from_ip answers without a lookup. */
  predicate IsLocalIp(ip: string) {
    ip == "127.0.0.1" || ip == "localhost" || "192.168." <= ip || "10." <= ip || "172." <= ip
  }

  /** get_location_from_ip: 'Local' everywhere for a local address, else
      what the lookup returned (the empty-field fallback when it failed). */
  function LocationFor(ip: string, lookup: Location): (loc: Location)
    ensures IsLocalIp(ip) ==> loc == Location("Local", "Local", "Local")
    ensures !IsLocalIp(ip) ==> loc == lookup
  {
    if IsLocalIp(ip) then Location("Local", "Local", "Local") else lookup
  }

  /** A failed lookup leaves the fields empty. */
  const NoLocation: Location := Location("", "", "")

  // ---------------------------------------------------------------------
  // Page titles
  // ---------------------------------------------------------------------

  /** Characters of Django's <slug:...> path converter. */
  predicate IsSlugChar(c: char) {
    IsAlnum(c) || c == '-' || c == '_'
  }

  predicate IsSlug(s: string) {
    s != [] && forall k :: 0 <= k < |s| ==> IsSlugChar(s[k])
  }

  predicate IsLetter(c: char) {
    IsUpper(c) || IsLowerLetter(c)
  }

  /** One character of str.title(): a letter is lowercased when it follows
      a letter and uppercased otherwise; anything else is kept. */
  function TitleChar(c: char, afterLetter: bool): char {
    if IsLetter(c) then (if afterLetter then LowerChar(c) else UpperChar(c)) else c
  }

  /** str.title() on ASCII text: a letter is uppercased after a non-letter
      and lowercased after a letter. `afterLetter` says whether the text
      continues a word. */
  function TitleFrom(s: string, afterLetter: bool): (r: string)
    ensures |r| == |s|
  {
    if s == [] then [] else [TitleChar(s[0], afterLetter)] + TitleFrom(s[1..], IsLetter(s[0]))
  }

  /** Character by character: each letter is cased by whether the
      character before it (or `afterLetter`, for the first) is a letter. */
  lemma {:induction false} TitleFromChars(s: string, afterLetter: bool)
    ensures forall i :: 0 <= i < |s| ==>
      TitleFrom(s, afterLetter)[i] == TitleChar(s[i], if i == 0 then afterLetter else IsLetter(s[i - 1]))
  {
    if s != [] {
      TitleFromChars(s[1..], IsLetter(s[0]));
      var r := TitleFrom(s, afterLetter);
      assert r[1..] == TitleFrom(s[1..], IsLetter(s[0]));
      forall i | 1 <= i < |s| ensures s[1..][i - 1] == s[i] && r[i] == TitleFrom(s[1..], IsLetter(s[0]))[i - 1] { }
    }
  }

  function Title(s: string): (r: string)
    ensures |r| == |s|
  {
    TitleFrom(s, false)
  }

  /** Every letter Title keeps in place after a letter is lowercase, and
      every non-letter is kept. */
  lemma TitleShape(s: string, afterLetter: bool)
    ensures forall i :: 0 <= i < |s| && !IsLetter(s[i]) ==> TitleFrom(s, afterLetter)[i] == s[i]
    ensures forall i :: 1 <= i < |s| && IsLetter(s[i - 1]) ==> !IsUpper(TitleFrom(s, afterLetter)[i])
  {
    TitleFromChars(s, afterLetter);
  }

  /** The title a /blog/ path gets from URL resolution: 'Blog: ' and the
      title-cased slug for /blog/<slug>/, 'Blog Post' for the other blog
      views, 'Blog' when the path does not resolve. */
  function BlogTitle(path: string): (title: string)
    requires "/blog/" <= path
    ensures title != []
  {
    var rest := path[6..];
    if rest == "" || rest == "load-more/" || rest == "search/" then "Blog Post"
    else if |rest| >= 2 && rest[|rest| - 1] == '/' && IsSlug(rest[..|rest| - 1]) then
      "Blog: " + Title(ReplaceAll(rest[..|rest| - 1], "-", " "))
    else "Blog"
  }

  /** The page title of a path: its TRACKED_PAGES title, or the blog title
      for an untracked /blog/ path, or '' (not recorded). */
  function PageTitle(path: string): (title: string)
    ensures path in TrackedPages ==> title == TrackedPages[path]
    ensures path !in TrackedPages && "/blog/" <= path ==> title == BlogTitle(path)
    ensures title == "" <==> path !in TrackedPages && !("/blog/" <= path)
  {
    if path in TrackedPages then TrackedPages[path]
    else if "/blog/" <= path then BlogTitle(path)
    else ""
  }

  /** The path of a post page, taken apart as BlogTitle does. */
  lemma PostPath(slug: string, path: string)
    requires path == "/blog/" + slug + "/"
    ensures "/blog/" <= path && |path| >= 7 + |slug|
    ensures path[6..][..|path[6..]| - 1] == slug && path[6..][|path[6..]| - 1] == '/'
  {
    assert path[6..] == slug + "/";
  }

  /** No tracked page lies below /blog/. */
  lemma BelowBlogUntracked(path: string)
    requires "/blog/" <= path && |path| > 6
    ensures path !in TrackedPages
  {
    assert path[1] == 'b' && path[2] == 'l';
  }

  /** A slug is title-cased with its hyphens turned into spaces. */
  lemma BlogPostTitle(slug: string)
    requires IsSlug(slug) && slug != "load-more" && slug != "search"
    ensures PageTitle("/blog/" + slug + "/") == "Blog: " + Title(ReplaceAll(slug, "-", " "))
  {
    var path := "/blog/" + slug + "/";
    PostPath(slug, path);
    BelowBlogUntracked(path);
    var rest := path[6..];
    assert rest != "load-more/" && rest != "search/" by {
      assert "load-more/"[..9] == "load-more" && "search/"[..6] == "search";
    }
  }

  // ---------------------------------------------------------------------
  // The recorded view
  // ---------------------------------------------------------------------

  /** referrer_domain: for a non-empty referrer not classified direct, the
      lowercased netloc with every "www." removed, when urlparse gives a
      non-empty netloc; otherwise None. */
  function ReferrerDomain(referrer: string, source: Source): (r: Option<string>)
    ensures referrer == "" || source == Direct ==> r.None?
    ensures r.Some? ==> (UrlNetloc(referrer).Some? && UrlNetloc(referrer).value != ""
                         && r.value == ReplaceAll(Lower(UrlNetloc(referrer).value), "www.", ""))
    ensures (referrer != "" && source != Direct && UrlNetloc(referrer).Some? && UrlNetloc(referrer).value != "")
            ==> r == Some(ReplaceAll(Lower(UrlNetloc(referrer).value), "www.", ""))
  {
    if referrer != "" && source != Direct then
      match UrlNetloc(referrer)
      case None => None
      case Some(netloc) => if netloc != "" then Some(ReplaceAll(Lower(netloc), "www.", "")) else None
    else None
  }

  /** Not only a leading "www." is removed: one that follows text without
      a 'w' goes as well. */
  lemma InnerWwwRemoved(a: string, b: string)
    requires 'w' !in a
    ensures ReplaceAll(a + "www." + b, "www.", "") == a + ReplaceAll(b, "www.", "")
  {
    ReplaceAllAfter(a, b, "www.", "");
    assert a + "" == a;
  }

  /** track_page_view: the row written for a request, or None when the
      path has no title. The stored user agent is cut to 500 characters. */
  function TrackPageView(req: Request, ip: string, userAgent: string, c: Clock, hour: nat, lookup: Location): (v: Option<PageView>)
    ensures v.None? <==> PageTitle(req.path) == ""
    ensures v.Some? ==> v.value.pageUrl == req.path && v.value.pageTitle == PageTitle(req.path)
    ensures v.Some? ==> |v.value.userAgent| <= 500 && v.value.userAgent == Take(userAgent, 500)
    ensures v.Some? ==> v.value.trafficSource == DetectSource(MetaGet(req.meta, "HTTP_REFERER", ""))
    ensures v.Some? ==> var ref := MetaGet(req.meta, "HTTP_REFERER", "");
      && v.value.referrer == (if ref != "" then Some(ref) else None)
      && v.value.referrerDomain == ReferrerDomain(ref, DetectSource(ref))
    ensures v.Some? ==> v.value.ipAddress == ip && v.value.date == c.today && v.value.hour == hour
    ensures v.Some? ==> var loc := LocationFor(ip, lookup);
      v.value.country == Some(loc.country) && v.value.city == Some(loc.city) && v.value.region == Some(loc.region)
  {
    var referrer := MetaGet(req.meta, "HTTP_REFERER", "");
    var source := DetectSource(referrer);
    var title := PageTitle(req.path);
    if title == "" then None
    else
      var loc := LocationFor(ip, lookup);
      Some(PageView(
        req.path, title, source,
        if referrer != "" then Some(referrer) else None,
        ip, Take(userAgent, 500),
        Some(loc.country), Some(loc.city), Some(loc.region),
        c.today, hour,
        ReferrerDomain(referrer, source)))
  }

  // ---------------------------------------------------------------------
  // The deduplication cache
  // ---------------------------------------------------------------------

  const DedupWindow: int := 600
  const MaxCacheEntries: int := 5000

  /** The entries the sweep keeps: those recorded at or after now - 600. */
  function Pruned(m: map<(string, string), int>, now: int): (r: map<(string, string), int>)
    ensures forall k :: k in r <==> k in m && m[k] >= now - DedupWindow
    ensures forall k :: k in r ==> r[k] == m[k]
  {
    map k | k in m && m[k] >= now - DedupWindow :: m[k]
  }

  /** The cache after recording key at now: written, then swept if it
      holds more than 5000 entries. */
  function Recorded(m: map<(string, string), int>, key: (string, string), now: int): map<(string, string), int> {
    var m1 := m[key := now];
    if |m1| > MaxCacheEntries then Pruned(m1, now) else m1
  }

  /** The key just written survives the sweep with its new timestamp, and
      every other entry is either kept as it was or was expired. */
  lemma RecordedKeepsKey(m: map<(string, string), int>, key: (string, string), now: int)
    ensures key in Recorded(m, key, now) && Recorded(m, key, now)[key] == now
    ensures forall k :: k in m && k != key && m[k] >= now - DedupWindow ==> k in Recorded(m, key, now) && Recorded(m, key, now)[k] == m[k]
    ensures forall k :: k in m && k != key && k !in Recorded(m, key, now) ==> |m[key := now]| > MaxCacheEntries && m[k] < now - DedupWindow
  {
  }

  /** Whether the key was seen less than 600 s ago (a missing key counts as
      seen at time 0). */
  predicate SeenRecently(m: map<(string, string), int>, key: (string, string), now: int) {
    now - (if key in m then m[key] else 0) < DedupWindow
  }

  /** With a clock past the first window, a key never seen is never
      deduplicated. */
  lemma FirstVisitNotDeduplicated(m: map<(string, string), int>, key: (string, string), now: int)
    requires now >= DedupWindow && key !in m
    ensures !SeenRecently(m, key, now)
  {
  }

  class Middleware {
    /** _dedup_cache: (ip, path) -> time last recorded. */
    var cache: map<(string, string), int>
    /** The PageView rows written so far. */
    var views: seq<PageView>

    constructor()
      ensures cache == map[] && views == []
    {
      cache := map[];
      views := [];
    }

    /** The sweep: every entry recorded before now - 600 is removed, one
        expired key at a time. */
    method Sweep(now: int)
      modifies this
      ensures cache == Pruned(old(cache), now) && views == old(views)
    {
      var cutoff := now - DedupWindow;
      var expired := set e | e in cache && cache[e] < cutoff;
      ghost var full := cache;
      while expired != {}
        invariant expired <= full.Keys
        invariant forall e :: e in expired ==> full[e] < cutoff
        invariant views == old(views)
        invariant cache == map e | e in full && (full[e] >= cutoff || e in expired) :: full[e]
        decreases |expired|
      {
        var e :| e in expired;
        cache := map x | x in cache && x != e :: cache[x];
        expired := expired - {e};
      }
    }

    /** process_response. `now` is time.time(); `c` and `hour` the date and
        hour stamped on a new row; `lookup` what ip-api answers; `stored`
        whether the write succeeds (a failed write is swallowed). */
    method ProcessResponse(req: Request, resp: Response, now: int, c: Clock, hour: nat, lookup: Location, stored: bool)
      returns (result: Response)
      modifies this
      ensures result == resp
      ensures Ignored(req, resp) ==> cache == old(cache) && views == old(views)
      ensures !Ignored(req, resp) && SeenRecently(old(cache), (ClientIp(req.meta), req.path), now) ==>
                cache == old(cache) && views == old(views)
      ensures !Ignored(req, resp) && !SeenRecently(old(cache), (ClientIp(req.meta), req.path), now) ==>
                cache == Recorded(old(cache), (ClientIp(req.meta), req.path), now)
                && var v := TrackPageView(req, ClientIp(req.meta), UserAgent(req), c, hour, lookup);
                   views == old(views) + (if stored && v.Some? then [v.value] else [])
    {
      result := resp;
      if req.httpMethod != "GET" || resp.statusCode != 200 {
        return;
      }
      if HasSkipPrefix(req.path) {
        return;
      }
      if IsSiteStaff(req.user) {
        return;
      }
      var userAgent := MetaGet(req.meta, "HTTP_USER_AGENT", "");
      if userAgent == "" || IsBot(userAgent) {
        return;
      }
      var ip := ClientIp(req.meta);
      var key := (ip, req.path);
      var lastSeen := if key in cache then cache[key] else 0;
      if now - lastSeen < DedupWindow {
        return;
      }
      cache := cache[key := now];
      if |cache| > MaxCacheEntries {
        Sweep(now);
      }
      var v := TrackPageView(req, ip, userAgent, c, hour, lookup);
      if stored && v.Some? {
        views := views + [v.value];
      }
    }
  }
}
