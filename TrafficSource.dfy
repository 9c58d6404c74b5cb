/** Referrer classification (analytics/utils.py): the authority part of a
    referrer URL, as Python's urllib.parse.urlsplit extracts it, and the
    ordered same-site / search / social / referral test on that host. */
module TrafficSource {
  import opened Base

  /** The four traffic sources a page view can be attributed to. */
  datatype Source = Direct | Social | Search | Referral

  /** The host that counts as internal navigation. */
  const SiteDomain: string := "doclumina.org"

  const SearchEngines: seq<string> := [
    "google.com", "bing.com", "yahoo.com", "duckduckgo.com",
    "yandex.com", "baidu.com", "ask.com"
  ]

  const SocialPlatforms: seq<string> := [
    "facebook.com", "twitter.com", "x.com", "linkedin.com",
    "instagram.com", "youtube.com", "tiktok.com", "pinterest.com",
    "reddit.com", "telegram.org", "whatsapp.com", "medium.com", "threads.com"
  ]

  /** Page paths with a fixed title in the analytics records. */
  const TrackedPages: map<string, string> := map[
    "/" := "Homepage",
    "/about/" := "About Us",
    "/contact/" := "Contact Us",
    "/bookings/" := "Book an Appointment",
    "/services/" := "Our Services",
    "/disclaimer/" := "Disclaimer",
    "/privacy-policy/" := "Privacy Policy",
    "/terms/" := "Terms and Conditions",
    "/blog/" := "Blog"
  ]

  // ---------------------------------------------------------------------
  // The authority of a URL (urlsplit(url).netloc)
  // ---------------------------------------------------------------------

  /** url.lstrip() of the C0 control characters and space. */
  function LStripControl(s: string): (r: string)
    ensures |r| <= |s| && r == s[|s| - |r|..]
    ensures r == [] || r[0] as int > 0x20
  {
    if s != [] && s[0] as int <= 0x20 then LStripControl(s[1..]) else s
  }

  /** Removal of tab, carriage return and line feed anywhere in the URL. */
  function RemoveUnsafe(s: string): (r: string)
    ensures |r| <= |s|
    ensures NoUnsafe(r)
  {
    if s == [] then []
    else if s[0] == '\t' || s[0] == '\r' || s[0] == '\n' then RemoveUnsafe(s[1..])
    else [s[0]] + RemoveUnsafe(s[1..])
  }

  predicate IsSchemeChar(c: char) {
    IsAlnum(c) || c == '+' || c == '-' || c == '.'
  }

  /** Index of the first occurrence of c in s, if any. */
  function Find(s: string, c: char): (r: Option<nat>)
    ensures r.Some? ==> r.value < |s| && s[r.value] == c && c !in s[..r.value]
    ensures r.None? ==> c !in s
  {
    if s == [] then None
    else if s[0] == c then Some(0)
    else match Find(s[1..], c)
      case None => None
      case Some(i) => Some(i + 1)
  }

  /** What follows the scheme: urlsplit takes s[..i] as the scheme when i is
      the first ':' and s[..i] is a letter followed by scheme characters. */
  function AfterScheme(s: string): (r: string)
    ensures |r| <= |s| && r == s[|s| - |r|..]
  {
    match Find(s, ':')
    case None => s
    case Some(i) =>
      if i > 0 && (IsUpper(s[0]) || IsLowerLetter(s[0]))
         && forall k :: 0 <= k < i ==> IsSchemeChar(s[k])
      then s[i + 1..]
      else s
  }

  predicate IsNetlocEnd(c: char) { c == '/' || c == '?' || c == '#' }

  /** The text up to the first '/', '?' or '#'. */
  function UpToDelimiter(s: string): (r: string)
    ensures r <= s
    ensures forall k :: 0 <= k < |r| ==> !IsNetlocEnd(r[k])
    ensures r == s || IsNetlocEnd(s[|r|])
  {
    if s == [] || IsNetlocEnd(s[0]) then [] else [s[0]] + UpToDelimiter(s[1..])
  }

  /** urlsplit(url).netloc; None where urlsplit raises ValueError (a '[' without
      ']' or the reverse). */
  function UrlNetloc(url: string): (r: Option<string>)
    ensures r.Some? ==> ('[' in r.value <==> ']' in r.value)
  {
    var rest := AfterScheme(RemoveUnsafe(LStripControl(url)));
    var netloc := if "//" <= rest then UpToDelimiter(rest[2..]) else "";
    if ('[' in netloc) != (']' in netloc) then None else Some(netloc)
  }

  // ---------------------------------------------------------------------
  // Classification (TrafficSourceDetector.detect_source)
  // ---------------------------------------------------------------------

  /** re.sub(r'^www\.', '', host): one leading "www." removed. */
  function StripLeadingWww(host: string): (r: string)
    ensures "www." <= host ==> host == "www." + r
    ensures !("www." <= host) ==> r == host
  {
    if "www." <= host then host[4..] else host
  }

  /** The ordered decision, over the three lists it is given. */
  function ClassifyWith(domain: string, site: string, search: seq<string>, social: seq<string>): Source {
    if Contains(domain, site) then Direct
    else if ContainsAny(domain, search) then Search
    else if ContainsAny(domain, social) then Social
    else Referral
  }

  /** The decision on a lowercased host with one "www." removed. */
  function ClassifyHost(domain: string): Source {
    ClassifyWith(domain, SiteDomain, SearchEngines, SocialPlatforms)
  }

  /** The host as detect_source compares it. */
  function ComparedHost(netloc: string): string {
    StripLeadingWww(Lower(netloc))
  }

  function DetectSource(referrer: string): (r: Source)
  {
    if referrer == "" then Direct
    else match UrlNetloc(referrer)
      case None => Direct
      case Some(netloc) => ClassifyHost(ComparedHost(netloc))
  }

  // ---------------------------------------------------------------------
  // Properties
  // ---------------------------------------------------------------------

  /** The decision table of ClassifyWith, each outcome stated by its own
      condition on the host. */
  lemma ClassifyWithCases(h: string, site: string, search: seq<string>, social: seq<string>)
    ensures ClassifyWith(h, site, search, social) == Direct <==> Contains(h, site)
    ensures ClassifyWith(h, site, search, social) == Search <==>
      !Contains(h, site) && exists k :: 0 <= k < |search| && Contains(h, search[k])
    ensures ClassifyWith(h, site, search, social) == Social <==>
      && !Contains(h, site)
      && (forall k :: 0 <= k < |search| ==> !Contains(h, search[k]))
      && exists k :: 0 <= k < |social| && Contains(h, social[k])
    ensures ClassifyWith(h, site, search, social) == Referral <==>
      && !Contains(h, site)
      && (forall k :: 0 <= k < |search| ==> !Contains(h, search[k]))
      && (forall k :: 0 <= k < |social| ==> !Contains(h, social[k]))
  {
  }

  /** detect_source, outcome by outcome: an empty referrer and a referrer
      urlsplit rejects are direct; otherwise the lowercased host without
      its leading "www." decides, the site's domain first, then the search
      engines, then the social platforms. */
  lemma DetectSourceCases(referrer: string)
    ensures DetectSource(referrer) == Direct <==>
      referrer == "" || UrlNetloc(referrer).None? || Contains(ComparedHost(UrlNetloc(referrer).value), SiteDomain)
    ensures DetectSource(referrer) == Search <==>
      && referrer != "" && UrlNetloc(referrer).Some?
      && var h := ComparedHost(UrlNetloc(referrer).value);
        && !Contains(h, SiteDomain)
        && exists k :: 0 <= k < |SearchEngines| && Contains(h, SearchEngines[k])
    ensures DetectSource(referrer) == Social <==>
      && referrer != "" && UrlNetloc(referrer).Some?
      && var h := ComparedHost(UrlNetloc(referrer).value);
        && !Contains(h, SiteDomain)
        && (forall k :: 0 <= k < |SearchEngines| ==> !Contains(h, SearchEngines[k]))
        && exists k :: 0 <= k < |SocialPlatforms| && Contains(h, SocialPlatforms[k])
    ensures DetectSource(referrer) == Referral <==>
      && referrer != "" && UrlNetloc(referrer).Some?
      && var h := ComparedHost(UrlNetloc(referrer).value);
        && !Contains(h, SiteDomain)
        && (forall k :: 0 <= k < |SearchEngines| ==> !Contains(h, SearchEngines[k]))
        && (forall k :: 0 <= k < |SocialPlatforms| ==> !Contains(h, SocialPlatforms[k]))
  {
    if referrer != "" && UrlNetloc(referrer).Some? {
      ClassifyWithCases(ComparedHost(UrlNetloc(referrer).value), SiteDomain, SearchEngines, SocialPlatforms);
    }
  }

  /** Same-site wins over every list: a host containing the site's domain is
      direct even when it also names a search engine. */
  lemma SameSiteBeatsLists(referrer: string)
    requires referrer != "" && UrlNetloc(referrer).Some?
    requires Contains(ComparedHost(UrlNetloc(referrer).value), SiteDomain)
    ensures DetectSource(referrer) == Direct
  {
  }

  /** Search is tested before social. */
  lemma SearchBeatsSocial(referrer: string, k: nat)
    requires referrer != "" && UrlNetloc(referrer).Some?
    requires !Contains(ComparedHost(UrlNetloc(referrer).value), SiteDomain)
    requires k < |SearchEngines| && Contains(ComparedHost(UrlNetloc(referrer).value), SearchEngines[k])
    ensures DetectSource(referrer) == Search
  {
  }

  /** Nothing longer than s occurs in s. */
  lemma NothingLonger(s: string, sub: string)
    requires |sub| > |s|
    ensures !Contains(s, sub)
  {
    assert forall i :: !OccursAt(s, sub, i);
  }

  /** An empty host matches no list entry. */
  lemma EmptyHostIsReferral()
    ensures ClassifyHost("") == Referral
  {
    NothingLonger("", SiteDomain);
    assert forall k :: 0 <= k < |SearchEngines| ==> SearchEngines[k] != [];
    assert forall k :: 0 <= k < |SocialPlatforms| ==> SocialPlatforms[k] != [];
    assert forall x :: x != [] ==> !Contains("", x) by {
      forall x: string | x != [] ensures !Contains("", x) { NothingLonger("", x); }
    }
    ClassifyWithCases("", SiteDomain, SearchEngines, SocialPlatforms);
  }

  /** A referrer without an authority part (no "//" after the scheme) has
      an empty host, which matches no list: it is a referral. */
  lemma NoAuthorityIsReferral(referrer: string)
    requires referrer != "" && UrlNetloc(referrer) == Some("")
    ensures DetectSource(referrer) == Referral
  {
    assert ComparedHost("") == "";
    EmptyHostIsReferral();
  }

  /** A referrer that needs no cleaning and has no ':' and no leading "//"
      has neither a scheme nor an authority: it is a referral. */
  lemma PlainTextIsReferral(u: string)
    requires u != [] && u[0] as int > 0x20 && NoUnsafe(u)
    requires ':' !in u && !("//" <= u)
    ensures DetectSource(u) == Referral
  {
    PlainTextNetloc(u);
    NoAuthorityIsReferral(u);
  }

  lemma PlainTextNetloc(u: string)
    requires u != [] && u[0] as int > 0x20 && NoUnsafe(u)
    requires ':' !in u && !("//" <= u)
    ensures UrlNetloc(u) == Some("")
  {
    assert LStripControl(u) == u;
    RemoveUnsafeNoop(u);
    assert AfterScheme(u) == u;
  }

  lemma BareDomainText()
    ensures var u := "google.com/x";
            u != [] && u[0] as int > 0x20 && NoUnsafe(u) && ':' !in u && !("//" <= u)
  {
    var u := "google.com/x";
    assert u[1] == 'o';
    forall k | 0 <= k < |u| ensures u[k] != '\t' && u[k] != '\r' && u[k] != '\n' && u[k] != ':' {
    }
  }

  /** "google.com/x" has no scheme and no "//": its host is empty. */
  lemma BareDomainIsReferral()
    ensures DetectSource("google.com/x") == Referral
  {
    BareDomainText();
    PlainTextIsReferral("google.com/x");
  }

  lemma {:induction false} RemoveUnsafeNoop(s: string)
    requires NoUnsafe(s)
    ensures RemoveUnsafe(s) == s
  {
    if s != [] {
      RemoveUnsafeNoop(s[1..]);
    }
  }

  /** An unbalanced IPv6 bracket makes urlsplit raise, and the exception
      handler classifies the referrer as direct. */
  lemma UnbalancedBracketIsDirect(referrer: string)
    requires referrer != ""
    requires var rest := AfterScheme(RemoveUnsafe(LStripControl(referrer)));
             "//" <= rest && ('[' in UpToDelimiter(rest[2..])) != (']' in UpToDelimiter(rest[2..]))
    ensures DetectSource(referrer) == Direct
  {
  }

  /** Only the host matters: whatever follows the authority (a path, a query
      such as "?q=google.com", a fragment) never changes the result. */
  lemma {:induction false} PathNeverMatters(scheme: string, host: string, tail1: string, tail2: string)
    requires scheme != [] && (IsUpper(scheme[0]) || IsLowerLetter(scheme[0]))
    requires forall k :: 0 <= k < |scheme| ==> IsSchemeChar(scheme[k])
    requires forall k :: 0 <= k < |host| ==> !IsNetlocEnd(host[k])
    requires NoUnsafe(host) && NoUnsafe(tail1) && NoUnsafe(tail2)
    requires tail1 == [] || IsNetlocEnd(tail1[0])
    requires tail2 == [] || IsNetlocEnd(tail2[0])
    ensures UrlNetloc(scheme + "://" + host + tail1) == UrlNetloc(scheme + "://" + host + tail2)
    ensures DetectSource(scheme + "://" + host + tail1) == DetectSource(scheme + "://" + host + tail2)
  {
    NetlocOfAbsolute(scheme, host, tail1);
    NetlocOfAbsolute(scheme, host, tail2);
  }

  predicate NoUnsafe(s: string) {
    forall k :: 0 <= k < |s| ==> s[k] != '\t' && s[k] != '\r' && s[k] != '\n'
  }

  lemma NoUnsafeConcat(a: string, b: string)
    requires NoUnsafe(a) && NoUnsafe(b)
    ensures NoUnsafe(a + b)
  {
    forall k | 0 <= k < |a + b| ensures (a + b)[k] != '\t' && (a + b)[k] != '\r' && (a + b)[k] != '\n' {
      if k >= |a| { assert (a + b)[k] == b[k - |a|]; }
    }
  }

  lemma {:induction false} FindAfter(p: string, c: char, rest: string)
    requires c !in p && rest != [] && rest[0] == c
    ensures Find(p + rest, c) == Some(|p|)
  {
    if p != [] {
      assert (p + rest)[1..] == p[1..] + rest;
      FindAfter(p[1..], c, rest);
    } else {
      assert p + rest == rest;
    }
  }

  lemma AfterSchemeOf(scheme: string, rest: string)
    requires scheme != [] && (IsUpper(scheme[0]) || IsLowerLetter(scheme[0]))
    requires forall k :: 0 <= k < |scheme| ==> IsSchemeChar(scheme[k])
    ensures AfterScheme(scheme + ":" + rest) == rest
  {
    var u := scheme + (":" + rest);
    assert scheme + ":" + rest == u;
    assert ':' !in scheme;
    FindAfter(scheme, ':', ":" + rest);
    assert forall k :: 0 <= k < |scheme| ==> u[k] == scheme[k];
    assert u[|scheme| + 1..] == rest;
  }

  lemma {:induction false} NetlocOfAbsolute(scheme: string, host: string, tail: string)
    requires scheme != [] && (IsUpper(scheme[0]) || IsLowerLetter(scheme[0]))
    requires forall k :: 0 <= k < |scheme| ==> IsSchemeChar(scheme[k])
    requires NoNetlocEnd(host)
    requires NoUnsafe(host) && NoUnsafe(tail)
    requires tail == [] || IsNetlocEnd(tail[0])
    ensures UrlNetloc(scheme + "://" + host + tail) == NetlocOf(host)
  {
    PreparedAbsolute(scheme, host, tail);
    SlashesThenHost(host, tail);
    NetlocFromRest(scheme + "://" + host + tail, "//" + host + tail, host);
  }

  lemma SlashesThenHost(host: string, tail: string)
    requires NoNetlocEnd(host)
    requires tail == [] || IsNetlocEnd(tail[0])
    ensures var rest := "//" + host + tail;
            "//" <= rest && UpToDelimiter(rest[2..]) == host
  {
    var rest := "//" + host + tail;
    var ht := host + tail;
    assert rest == "//" + ht;
    AfterPrefix("//", ht);
    UpToDelimiterOf(host, tail);
  }

  lemma AfterPrefix<T>(p: seq<T>, x: seq<T>)
    ensures p <= p + x && (p + x)[|p|..] == x
  {
  }

  lemma NetlocFromRest(url: string, rest: string, host: string)
    requires AfterScheme(RemoveUnsafe(LStripControl(url))) == rest
    requires "//" <= rest && UpToDelimiter(rest[2..]) == host
    ensures UrlNetloc(url) == NetlocOf(host)
  {
  }

  predicate NoNetlocEnd(host: string) {
    forall k :: 0 <= k < |host| ==> !IsNetlocEnd(host[k])
  }

  function NetlocOf(host: string): Option<string> {
    if ('[' in host) != (']' in host) then None else Some(host)
  }

  lemma SchemeNoUnsafe(scheme: string)
    requires forall k :: 0 <= k < |scheme| ==> IsSchemeChar(scheme[k])
    ensures NoUnsafe(scheme)
  {
    forall k | 0 <= k < |scheme| ensures scheme[k] != '\t' && scheme[k] != '\r' && scheme[k] != '\n' {
      assert IsSchemeChar(scheme[k]);
    }
  }

  lemma SeparatorsNoUnsafe()
    ensures NoUnsafe(":") && NoUnsafe("//")
  {
    assert forall k :: 0 <= k < |"//"| ==> "//"[k] == '/';
  }

  /** Of an absolute URL without control characters only the text after
      "scheme:" is left once the scheme is split off. */
  lemma PreparedAbsolute(scheme: string, host: string, tail: string)
    requires scheme != [] && (IsUpper(scheme[0]) || IsLowerLetter(scheme[0]))
    requires forall k :: 0 <= k < |scheme| ==> IsSchemeChar(scheme[k])
    requires NoUnsafe(host) && NoUnsafe(tail)
    ensures AfterScheme(RemoveUnsafe(LStripControl(scheme + "://" + host + tail))) == "//" + host + tail
  {
    var rest := "//" + host + tail;
    var p := scheme + ":";
    var u := p + rest;
    assert u == scheme + "://" + host + tail by {
      assert "://" == ":" + "//";
      Assoc(scheme, ":", "//");
      Assoc(p, "//", host);
      Assoc(p, "//" + host, tail);
    }
    assert u[0] == scheme[0];
    assert LStripControl(u) == u;
    SchemeNoUnsafe(scheme);
    SeparatorsNoUnsafe();
    NoUnsafeConcat("//", host);
    NoUnsafeConcat("//" + host, tail);
    NoUnsafeConcat(scheme, ":");
    NoUnsafeConcat(scheme + ":", rest);
    RemoveUnsafeNoop(u);
    AfterSchemeOf(scheme, rest);
  }

  lemma {:induction false} UpToDelimiterOf(host: string, tail: string)
    requires forall k :: 0 <= k < |host| ==> !IsNetlocEnd(host[k])
    requires tail == [] || IsNetlocEnd(tail[0])
    ensures UpToDelimiter(host + tail) == host
  {
    if host != [] {
      assert (host + tail)[1..] == host[1..] + tail;
      UpToDelimiterOf(host[1..], tail);
    }
  }

  /** An absolute URL whose host, lowercased and without a leading "www.",
      names a search engine and not the site is a search referral, whatever
      its path and query: "https://www.google.com/search?q=x" is one. */
  lemma SearchHostIsSearch(scheme: string, host: string, tail: string, k: nat)
    requires scheme != [] && (IsUpper(scheme[0]) || IsLowerLetter(scheme[0]))
    requires forall i :: 0 <= i < |scheme| ==> IsSchemeChar(scheme[i])
    requires forall i :: 0 <= i < |host| ==> !IsNetlocEnd(host[i])
    requires NoUnsafe(host) && NoUnsafe(tail)
    requires tail == [] || IsNetlocEnd(tail[0])
    requires '[' !in host && ']' !in host
    requires !Contains(ComparedHost(host), SiteDomain)
    requires k < |SearchEngines| && Contains(ComparedHost(host), SearchEngines[k])
    ensures DetectSource(scheme + "://" + host + tail) == Search
  {
    NetlocOfAbsolute(scheme, host, tail);
  }
}
