/**
 * The browser-matched request headers of the scraper (`_get_headers_for_ua`): the
 * User-Agent is classified by substring tests as Firefox, Safari-only or Chromium,
 * and the header map is filled in for that family. The two `random.choice` picks
 * (Accept-Language, and the desktop platform of a Chromium browser) are parameters,
 * given as indices into the lists the source chooses from.
 */
module Headers {
  import opened Text
  import opened Wrappers

  /** The Accept-Language values the source picks from. */
  const AcceptLanguages: seq<string> :=
    ["en-IN,en-GB;q=0.9,en;q=0.8", "en-US,en;q=0.9,hi;q=0.7", "en-GB,en;q=0.8"]

  /** The sec-ch-ua-platform values a desktop Chromium browser picks from. */
  const DesktopPlatforms: seq<string> := ["\"Windows\"", "\"macOS\"", "\"Linux\""]

  const FirefoxAccept := "text/html,application/xhtml+xml,application/xml;q=0.9,image/avif,image/webp,*/*;q=0.8"
  const SafariAccept := "text/html,application/xhtml+xml,application/xml;q=0.9,*/*;q=0.8"
  const ChromiumAccept :=
    "text/html,application/xhtml+xml,application/xml;q=0.9,image/avif,image/webp,image/apng,*/*;q=0.8,application/signed-exchange;v=b3;q=0.7"

  const Chrome125Brands := "\"Google Chrome\";v=\"125\", \"Chromium\";v=\"125\", \"Not-A.Brand\";v=\"99\""
  const Chrome124Brands := "\"Google Chrome\";v=\"124\", \"Chromium\";v=\"124\", \"Not-A.Brand\";v=\"99\""
  const Edge124Brands := "\"Microsoft Edge\";v=\"124\", \"Chromium\";v=\"124\", \"Not-A.Brand\";v=\"99\""

  /** SEC_CH_UA_MAP, in its insertion order: a User-Agent marker and the sec-ch-ua value it selects. */
  const SecChUaTable: seq<(string, string)> :=
    [("Chrome/125", Chrome125Brands), ("Chrome/124", Chrome124Brands), ("Edg/124", Edge124Brands)]

  /**
   * The Edge User-Agent of the pool, written in pieces short enough for the containment
   * proofs below to inspect one at a time; the value is the source's string.
   */
  const EdgeUa: string := EdgeLead + (EdgeMarker + EdgeTail)
  const EdgeLead: string := EdgeLead1 + EdgeLead2 + EdgeLead3
  const EdgeLead1 := "Mozilla/5.0 (Windows NT 10.0; "
  const EdgeLead2 := "Win64; x64) AppleWebKit/537.36 "
  const EdgeLead3 := "(KHTML, like Gecko) "
  const EdgeMarker := "Chrome/124"
  const EdgeTail := ".0.0.0 Safari/537.36 Edg/124.0.0.0"

  /** USER_AGENTS: the pool a User-Agent is drawn from for every request. */
  const UserAgents: seq<string> := [
    "Mozilla/5.0 (Windows NT 10.0; Win64; x64) AppleWebKit/537.36 (KHTML, like Gecko) Chrome/125.0.0.0 Safari/537.36",
    "Mozilla/5.0 (Windows NT 10.0; Win64; x64) AppleWebKit/537.36 (KHTML, like Gecko) Chrome/124.0.0.0 Safari/537.36",
    "Mozilla/5.0 (Macintosh; Intel Mac OS X 10_15_7) AppleWebKit/537.36 (KHTML, like Gecko) Chrome/125.0.0.0 Safari/537.36",
    "Mozilla/5.0 (Macintosh; Intel Mac OS X 14_5) AppleWebKit/537.36 (KHTML, like Gecko) Chrome/124.0.0.0 Safari/537.36",
    "Mozilla/5.0 (X11; Linux x86_64) AppleWebKit/537.36 (KHTML, like Gecko) Chrome/125.0.0.0 Safari/537.36",
    "Mozilla/5.0 (Windows NT 10.0; Win64; x64; rv:126.0) Gecko/20100101 Firefox/126.0",
    "Mozilla/5.0 (Macintosh; Intel Mac OS X 14.5; rv:126.0) Gecko/20100101 Firefox/126.0",
    EdgeUa,
    "Mozilla/5.0 (Macintosh; Intel Mac OS X 14_5) AppleWebKit/605.1.15 (KHTML, like Gecko) Version/17.4.1 Safari/605.1.15",
    "Mozilla/5.0 (Linux; Android 14; Pixel 8) AppleWebKit/537.36 (KHTML, like Gecko) Chrome/124.0.6367.82 Mobile Safari/537.36"
  ]

  /** The three header families the source distinguishes. */
  datatype Browser = Firefox | SafariOnly | Chromium

  /** The classification, in the source's order: Firefox first, then Safari without Chrome or Edg. */
  function BrowserOf(ua: string): Browser {
    if Contains(ua, "Firefox") then Firefox
    else if Contains(ua, "Safari") && !Contains(ua, "Chrome") && !Contains(ua, "Edg") then SafariOnly
    else Chromium
  }

  predicate IsMobile(ua: string) {
    Contains(ua, "Mobile") || Contains(ua, "Android")
  }

  function AcceptFor(b: Browser): string {
    match b
    case Firefox => FirefoxAccept
    case SafariOnly => SafariAccept
    case Chromium => ChromiumAccept
  }

  /** The header names the builder can set; `Wire` gives the name sent on the wire. */
  datatype HeaderName =
    | UserAgent | AcceptLanguage | AcceptEncoding | Connection | UpgradeInsecureRequests
    | CacheControl | Referer | Accept | Dnt | SecFetchDest | SecFetchMode | SecFetchSite
    | SecFetchUser | SecChUaMobile | SecChUaPlatform | SecChUa

  function Wire(n: HeaderName): string {
    match n
    case UserAgent => "User-Agent"
    case AcceptLanguage => "Accept-Language"
    case AcceptEncoding => "Accept-Encoding"
    case Connection => "Connection"
    case UpgradeInsecureRequests => "Upgrade-Insecure-Requests"
    case CacheControl => "Cache-Control"
    case Referer => "Referer"
    case Accept => "Accept"
    case Dnt => "DNT"
    case SecFetchDest => "Sec-Fetch-Dest"
    case SecFetchMode => "Sec-Fetch-Mode"
    case SecFetchSite => "Sec-Fetch-Site"
    case SecFetchUser => "Sec-Fetch-User"
    case SecChUaMobile => "sec-ch-ua-mobile"
    case SecChUaPlatform => "sec-ch-ua-platform"
    case SecChUa => "sec-ch-ua"
  }

  /** A header map, keyed by header name. */
  type HeaderMap = map<HeaderName, string>

  /** The headers every request carries, whatever the browser. */
  const CommonKeys: set<HeaderName> :=
    {UserAgent, AcceptLanguage, AcceptEncoding, Connection, UpgradeInsecureRequests, CacheControl, Referer}
  const FetchMetadataKeys: set<HeaderName> := {SecFetchDest, SecFetchMode, SecFetchSite, SecFetchUser}

  /** The headers a browser family adds, apart from sec-ch-ua (which depends on the table). */
  function FamilyKeys(b: Browser): set<HeaderName> {
    match b
    case Firefox => {Accept, Dnt} + FetchMetadataKeys
    case SafariOnly => {Accept}
    case Chromium => {Accept, SecChUaMobile, SecChUaPlatform} + FetchMetadataKeys
  }

  /** Entry `k` is the first table entry whose marker occurs in `ua`. */
  predicate FirstMarkerAt(ua: string, table: seq<(string, string)>, k: int) {
    0 <= k < |table| && Contains(ua, table[k].0) && forall j :: 0 <= j < k ==> !Contains(ua, table[j].0)
  }

  /** The value of the first table entry whose marker occurs in `ua`, if any does. */
  function FirstMarker(ua: string, table: seq<(string, string)>): Option<string>
    decreases |table|
  {
    if |table| == 0 then None
    else if Contains(ua, table[0].0) then Some(table[0].1)
    else FirstMarker(ua, table[1..])
  }

  /** `FirstMarker` finds nothing exactly when no marker occurs, and otherwise the first match's value. */
  lemma {:induction false} FirstMarkerSpec(ua: string, table: seq<(string, string)>)
    ensures FirstMarker(ua, table).None? <==> forall k :: 0 <= k < |table| ==> !Contains(ua, table[k].0)
    ensures FirstMarker(ua, table).Some? ==>
              exists k :: FirstMarkerAt(ua, table, k) && FirstMarker(ua, table).value == table[k].1
    decreases |table|
  {
    if |table| > 0 && !Contains(ua, table[0].0) {
      FirstMarkerSpec(ua, table[1..]);
      assert forall k :: 0 < k < |table| ==> table[k] == table[1..][k - 1];
      var r := FirstMarker(ua, table[1..]);
      if r.Some? {
        var k :| FirstMarkerAt(ua, table[1..], k) && r.value == table[1..][k].1;
        assert FirstMarkerAt(ua, table, k + 1);
      }
    } else if |table| > 0 {
      assert FirstMarkerAt(ua, table, 0);
    }
  }

  /** At most one table entry is the first match. */
  lemma FirstMarkerUnique(ua: string, table: seq<(string, string)>, j: int, k: int)
    requires FirstMarkerAt(ua, table, j) && FirstMarkerAt(ua, table, k)
    ensures j == k
  {
  }

  /** The seven headers every request starts with. */
  function CommonHeaders(ua: string, referer: string, languagePick: nat): HeaderMap
    requires languagePick < |AcceptLanguages|
  {
    map[
      UserAgent := ua,
      AcceptLanguage := AcceptLanguages[languagePick],
      AcceptEncoding := "gzip, deflate, br",
      Connection := "keep-alive",
      UpgradeInsecureRequests := "1",
      CacheControl := "max-age=0",
      Referer := referer
    ]
  }

  /** The headers a browser family adds, apart from sec-ch-ua. */
  function FamilyHeaders(b: Browser, isMobile: bool, platformPick: nat): HeaderMap
    requires platformPick < |DesktopPlatforms|
  {
    match b
    case Firefox => FirefoxHeaders()
    case SafariOnly => map[Accept := SafariAccept]
    case Chromium => ChromiumHeaders(isMobile, platformPick)
  }

  function FirefoxHeaders(): HeaderMap {
    map[Accept := FirefoxAccept, Dnt := "1", SecFetchDest := "document", SecFetchMode := "navigate",
        SecFetchSite := "same-origin", SecFetchUser := "?1"]
  }

  function ChromiumHeaders(isMobile: bool, platformPick: nat): HeaderMap
    requires platformPick < |DesktopPlatforms|
  {
    map[Accept := ChromiumAccept, SecFetchDest := "document", SecFetchMode := "navigate",
        SecFetchSite := "same-origin", SecFetchUser := "?1",
        SecChUaMobile := if isMobile then "?1" else "?0",
        SecChUaPlatform := if isMobile then "\"Android\"" else DesktopPlatforms[platformPick]]
  }

  /** sec-ch-ua, sent by a Chromium browser when the table lookup found a value. */
  function SecChUaHeader(b: Browser, found: Option<string>): HeaderMap
  {
    if b == Chromium && found.Some? then map[SecChUa := found.value] else map[]
  }

  /** The header map for a User-Agent of family `b` before sec-ch-ua, given the two random picks. */
  function HeadersFor(ua: string, referer: string, languagePick: nat, platformPick: nat, b: Browser, isMobile: bool)
    : HeaderMap
    requires languagePick < |AcceptLanguages| && platformPick < |DesktopPlatforms|
  {
    CommonHeaders(ua, referer, languagePick) + FamilyHeaders(b, isMobile, platformPick)
  }

  /** The header map `_get_headers_for_ua` returns, given the two random picks. */
  function Headers(ua: string, referer: string, languagePick: nat, platformPick: nat): HeaderMap
    requires languagePick < |AcceptLanguages| && platformPick < |DesktopPlatforms|
  {
    HeadersFor(ua, referer, languagePick, platformPick, BrowserOf(ua), IsMobile(ua))
      + SecChUaHeader(BrowserOf(ua), FirstMarker(ua, SecChUaTable))
  }

  /**
   * `_get_headers_for_ua(ua, referer)`: the User-Agent is classified once, then the headers
   * are assigned one by one for its family.
   */
  method BuildHeaders(ua: string, referer: string, languagePick: nat, platformPick: nat)
    returns (h: HeaderMap)
    requires languagePick < |AcceptLanguages| && platformPick < |DesktopPlatforms|
    ensures h == Headers(ua, referer, languagePick, platformPick)
  {
    var isMobile := IsMobile(ua);
    var browser := BrowserOf(ua);
    h := AssignHeaders(ua, referer, languagePick, platformPick, browser, isMobile);
    h := AssignSecChUa(h, ua, browser);
  }

  /** The end of the Chromium branch: sec-ch-ua from the table lookup, when it finds a value. */
  method AssignSecChUa(h0: HeaderMap, ua: string, b: Browser) returns (h: HeaderMap)
    ensures h == h0 + SecChUaHeader(b, FirstMarker(ua, SecChUaTable))
  {
    h := h0;
    if b == Chromium {
      var v := FindSecChUa(ua);
      if v.Some? {
        h := h[SecChUa := v.value];
      }
    }
  }

  /** The assignments of `_get_headers_for_ua` for a User-Agent of family `b`, up to sec-ch-ua. */
  method AssignHeaders(ua: string, referer: string, languagePick: nat, platformPick: nat, b: Browser, isMobile: bool)
    returns (h: HeaderMap)
    requires languagePick < |AcceptLanguages| && platformPick < |DesktopPlatforms|
    ensures h == HeadersFor(ua, referer, languagePick, platformPick, b, isMobile)
  {
    h := CommonHeaders(ua, referer, languagePick);
    match b
    case Firefox =>
      h := AssignFirefoxHeaders(h);
    case SafariOnly =>
      h := h[Accept := SafariAccept];
    case Chromium =>
      h := AssignChromiumHeaders(h, isMobile, platformPick);
  }

  /** The Firefox branch, one assignment at a time. */
  method AssignFirefoxHeaders(h0: HeaderMap) returns (h: HeaderMap)
    ensures h == h0 + FirefoxHeaders()
  {
    h := h0[Accept := FirefoxAccept];
    h := h[Dnt := "1"];
    h := h[SecFetchDest := "document"];
    h := h[SecFetchMode := "navigate"];
    h := h[SecFetchSite := "same-origin"];
    h := h[SecFetchUser := "?1"];
  }

  /** The Chromium branch up to sec-ch-ua, one assignment at a time. */
  method AssignChromiumHeaders(h0: HeaderMap, isMobile: bool, platformPick: nat) returns (h: HeaderMap)
    requires platformPick < |DesktopPlatforms|
    ensures h == h0 + ChromiumHeaders(isMobile, platformPick)
  {
    h := h0[Accept := ChromiumAccept];
    h := h[SecFetchDest := "document"];
    h := h[SecFetchMode := "navigate"];
    h := h[SecFetchSite := "same-origin"];
    h := h[SecFetchUser := "?1"];
    h := h[SecChUaMobile := if isMobile then "?1" else "?0"];
    h := h[SecChUaPlatform := if isMobile then "\"Android\"" else DesktopPlatforms[platformPick]];
  }

  /**
   * The loop over SEC_CH_UA_MAP: the value of the first marker, in table order, that
   * occurs in `ua` (the source sets sec-ch-ua to it and breaks), or none.
   */
  method FindSecChUa(ua: string) returns (v: Option<string>)
    ensures v == FirstMarker(ua, SecChUaTable)
  {
    v := None;
    for i := 0 to |SecChUaTable|
      invariant FirstMarker(ua, SecChUaTable) == FirstMarker(ua, SecChUaTable[i..])
    {
      if Contains(ua, SecChUaTable[i].0) {
        v := Some(SecChUaTable[i].1);
        return;
      }
      assert SecChUaTable[i..][1..] == SecChUaTable[i + 1..];
    }
  }

  /** User-Agent, Referer and Accept-Language come from the common part. */
  lemma HeadersForCommon(ua: string, referer: string, languagePick: nat, platformPick: nat, b: Browser, isMobile: bool)
    requires languagePick < |AcceptLanguages| && platformPick < |DesktopPlatforms|
    ensures var h := HeadersFor(ua, referer, languagePick, platformPick, b, isMobile);
      && h[UserAgent] == ua && h[Referer] == referer && h[AcceptLanguage] == AcceptLanguages[languagePick]
  {
    var f := FamilyHeaders(b, isMobile, platformPick);
    assert UserAgent !in f && Referer !in f && AcceptLanguage !in f;
  }

  /** The Accept header is the family's. */
  lemma HeadersForAccept(ua: string, referer: string, languagePick: nat, platformPick: nat, b: Browser, isMobile: bool)
    requires languagePick < |AcceptLanguages| && platformPick < |DesktopPlatforms|
    ensures var h := HeadersFor(ua, referer, languagePick, platformPick, b, isMobile);
      Accept in h && h[Accept] == AcceptFor(b)
  {
  }

  /** The header names `_get_headers_for_ua` sets, by family. */
  lemma HeadersForKeys(ua: string, referer: string, languagePick: nat, platformPick: nat, b: Browser, isMobile: bool)
    requires languagePick < |AcceptLanguages| && platformPick < |DesktopPlatforms|
    ensures HeadersFor(ua, referer, languagePick, platformPick, b, isMobile).Keys == CommonKeys + FamilyKeys(b)
  {
  }

  /** A Firefox or Safari-only map carries no client hints. */
  lemma HeadersForNoHints(ua: string, referer: string, languagePick: nat, platformPick: nat, b: Browser, isMobile: bool)
    requires languagePick < |AcceptLanguages| && platformPick < |DesktopPlatforms| && b != Chromium
    ensures var h := HeadersFor(ua, referer, languagePick, platformPick, b, isMobile);
      SecChUa !in h && SecChUaMobile !in h && SecChUaPlatform !in h
  {
    var c := CommonHeaders(ua, referer, languagePick);
    var f := FamilyHeaders(b, isMobile, platformPick);
    assert SecChUa !in c && SecChUaMobile !in c && SecChUaPlatform !in c;
    assert SecChUa !in f && SecChUaMobile !in f && SecChUaPlatform !in f;
  }

  /** A Chromium map says "?1" in sec-ch-ua-mobile exactly for a mobile User-Agent. */
  lemma HeadersForHints(ua: string, referer: string, languagePick: nat, platformPick: nat, isMobile: bool)
    requires languagePick < |AcceptLanguages| && platformPick < |DesktopPlatforms|
    ensures var h := HeadersFor(ua, referer, languagePick, platformPick, Chromium, isMobile);
      && (h[SecChUaMobile] == "?1" <==> isMobile)
      && h[SecChUaPlatform] == (if isMobile then "\"Android\"" else DesktopPlatforms[platformPick])
  {
    var f := FamilyHeaders(Chromium, isMobile, platformPick);
    assert f[SecChUaMobile] == (if isMobile then "?1" else "?0");
  }

  /** Merging a map without key `k` leaves `k` as it was. */
  lemma MergeKeeps(a: HeaderMap, c: HeaderMap, k: HeaderName)
    requires k !in c
    ensures (k in a + c <==> k in a) && (k in a ==> (a + c)[k] == a[k])
  {
  }

  /** `Headers` is the family's map with sec-ch-ua merged on top, which touches no other header. */
  lemma HeadersSplit(ua: string, referer: string, languagePick: nat, platformPick: nat, k: HeaderName)
    requires languagePick < |AcceptLanguages| && platformPick < |DesktopPlatforms| && k != SecChUa
    ensures var h := Headers(ua, referer, languagePick, platformPick);
      var hf := HeadersFor(ua, referer, languagePick, platformPick, BrowserOf(ua), IsMobile(ua));
      (k in h <==> k in hf) && (k in hf ==> h[k] == hf[k])
  {
    var hf := HeadersFor(ua, referer, languagePick, platformPick, BrowserOf(ua), IsMobile(ua));
    var sh := SecChUaHeader(BrowserOf(ua), FirstMarker(ua, SecChUaTable));
    assert k !in sh;
    MergeKeeps(hf, sh, k);
  }

  /** User-Agent and Referer are the inputs; Accept-Language and Accept are the picked and the family's. */
  lemma HeadersCommon(ua: string, referer: string, languagePick: nat, platformPick: nat)
    requires languagePick < |AcceptLanguages| && platformPick < |DesktopPlatforms|
    ensures var h := Headers(ua, referer, languagePick, platformPick);
      && UserAgent in h && h[UserAgent] == ua
      && Referer in h && h[Referer] == referer
      && AcceptLanguage in h && h[AcceptLanguage] == AcceptLanguages[languagePick]
      && Accept in h && h[Accept] == AcceptFor(BrowserOf(ua))
  {
    HeadersForCommon(ua, referer, languagePick, platformPick, BrowserOf(ua), IsMobile(ua));
    HeadersForAccept(ua, referer, languagePick, platformPick, BrowserOf(ua), IsMobile(ua));
    HeadersSplit(ua, referer, languagePick, platformPick, UserAgent);
    HeadersSplit(ua, referer, languagePick, platformPick, Referer);
    HeadersSplit(ua, referer, languagePick, platformPick, AcceptLanguage);
    HeadersSplit(ua, referer, languagePick, platformPick, Accept);
  }

  /**
   * The Firefox and Safari-only maps carry no client hints, and a Chromium map says "?1" in
   * sec-ch-ua-mobile exactly when the User-Agent is mobile (contains "Mobile" or "Android").
   */
  lemma HeadersHints(ua: string, referer: string, languagePick: nat, platformPick: nat)
    requires languagePick < |AcceptLanguages| && platformPick < |DesktopPlatforms|
    ensures var h := Headers(ua, referer, languagePick, platformPick);
      && (BrowserOf(ua) != Chromium ==> SecChUa !in h && SecChUaMobile !in h && SecChUaPlatform !in h)
      && (BrowserOf(ua) == Chromium ==>
            && SecChUaMobile in h && (h[SecChUaMobile] == "?1" <==> IsMobile(ua))
            && SecChUaPlatform in h
            && h[SecChUaPlatform] == (if IsMobile(ua) then "\"Android\"" else DesktopPlatforms[platformPick]))
  {
    var b := BrowserOf(ua);
    HeadersSplit(ua, referer, languagePick, platformPick, SecChUaMobile);
    HeadersSplit(ua, referer, languagePick, platformPick, SecChUaPlatform);
    if b == Chromium {
      HeadersForHints(ua, referer, languagePick, platformPick, IsMobile(ua));
    } else {
      HeadersForNoHints(ua, referer, languagePick, platformPick, b, IsMobile(ua));
    }
  }

  /**
   * sec-ch-ua is sent exactly to a Chromium User-Agent holding one of the table's markers,
   * and its value is that of the first such marker in table order.
   */
  lemma HeadersSecChUa(ua: string, referer: string, languagePick: nat, platformPick: nat)
    requires languagePick < |AcceptLanguages| && platformPick < |DesktopPlatforms|
    ensures var h := Headers(ua, referer, languagePick, platformPick);
      && (SecChUa in h <==> BrowserOf(ua) == Chromium && exists k :: 0 <= k < |SecChUaTable| && Contains(ua, SecChUaTable[k].0))
      && (SecChUa in h ==> exists k :: FirstMarkerAt(ua, SecChUaTable, k) && h[SecChUa] == SecChUaTable[k].1)
  {
    HeadersForLacksSecChUa(ua, referer, languagePick, platformPick, BrowserOf(ua), IsMobile(ua));
    SecChUaOf(Headers(ua, referer, languagePick, platformPick),
              HeadersFor(ua, referer, languagePick, platformPick, BrowserOf(ua), IsMobile(ua)), ua, BrowserOf(ua));
  }

  /** The family's map never holds sec-ch-ua: that header comes from the table alone. */
  lemma HeadersForLacksSecChUa(ua: string, referer: string, languagePick: nat, platformPick: nat, b: Browser, isMobile: bool)
    requires languagePick < |AcceptLanguages| && platformPick < |DesktopPlatforms|
    ensures SecChUa !in HeadersFor(ua, referer, languagePick, platformPick, b, isMobile)
  {
    assert SecChUa !in CommonHeaders(ua, referer, languagePick);
    assert SecChUa !in FamilyHeaders(b, isMobile, platformPick);
  }

  /** Merging the sec-ch-ua part into a map without it adds the first match's value, for Chromium only. */
  lemma SecChUaOf(h: HeaderMap, hf: HeaderMap, ua: string, b: Browser)
    requires SecChUa !in hf && h == hf + SecChUaHeader(b, FirstMarker(ua, SecChUaTable))
    ensures SecChUa in h <==> b == Chromium && exists k :: 0 <= k < |SecChUaTable| && Contains(ua, SecChUaTable[k].0)
    ensures SecChUa in h ==> exists k :: FirstMarkerAt(ua, SecChUaTable, k) && h[SecChUa] == SecChUaTable[k].1
  {
    FirstMarkerSpec(ua, SecChUaTable);
  }

  /** Distinct header names go out under distinct wire names. */
  lemma WireInjective(a: HeaderName, b: HeaderName)
    requires Wire(a) == Wire(b)
    ensures a == b
  {
    assert Wire(a)[..3] == Wire(b)[..3];
  }

  /** The Edge User-Agent is the pool's eighth entry (line 50 of the source). */
  lemma EdgeIsInPool()
    ensures UserAgents[7] == EdgeUa
  {
  }

  /** The pieces of the Edge User-Agent have no 'F'; only the marker has a 'C', in front. */
  lemma EdgeLead1Lacks() ensures 'F' !in EdgeLead1 && 'C' !in EdgeLead1 {}
  lemma EdgeLead2Lacks() ensures 'F' !in EdgeLead2 && 'C' !in EdgeLead2 {}
  lemma EdgeLead3Lacks() ensures 'F' !in EdgeLead3 && 'C' !in EdgeLead3 {}
  lemma EdgeMarkerLacks() ensures 'F' !in EdgeMarker && 'C' !in EdgeMarker[1..] {}
  lemma EdgeTailLacks() ensures 'F' !in EdgeTail && 'C' !in EdgeTail {}

  /** There is no 'F' in the Edge User-Agent. */
  lemma EdgeLacksF()
    ensures 'F' !in EdgeUa
  {
    EdgeLead1Lacks();
    EdgeLead2Lacks();
    EdgeLead3Lacks();
    EdgeMarkerLacks();
    EdgeTailLacks();
  }

  /** So there is no "Firefox" in it either. */
  lemma EdgeNotFirefox()
    ensures !Contains(EdgeUa, "Firefox")
  {
    EdgeLacksF();
    Absent(EdgeUa, "Firefox");
  }

  /** "Chrome" and "Chrome/124" occur in the Edge User-Agent, where its marker starts. */
  lemma EdgeHasChrome124()
    ensures Contains(EdgeUa, "Chrome") && Contains(EdgeUa, "Chrome/124")
  {
    assert (EdgeMarker + EdgeTail)[..10] == EdgeMarker;
    FoundAfter(EdgeLead, EdgeMarker + EdgeTail, "Chrome/124");
    FoundAfter(EdgeLead, EdgeMarker + EdgeTail, "Chrome");
  }

  /** The only 'C' of the Edge User-Agent is the first character of its marker. */
  lemma EdgeLacksC()
    ensures 'C' !in EdgeLead && 'C' !in EdgeMarker[1..] + EdgeTail
  {
    EdgeLead1Lacks();
    EdgeLead2Lacks();
    EdgeLead3Lacks();
    EdgeMarkerLacks();
    EdgeTailLacks();
  }

  /** The marker is "Chrome/124", not "Chrome/125". */
  lemma EdgeMarkerNot125()
    ensures !IsPrefix("Chrome/125", EdgeMarker + EdgeTail)
  {
    assert (EdgeMarker + EdgeTail)[..10] == EdgeMarker;
  }

  /** So "Chrome/125" can only start at the marker, where "Chrome/124" is. */
  lemma EdgeLacksChrome125()
    ensures !Contains(EdgeUa, "Chrome/125")
  {
    EdgeLacksC();
    SkipChunk(EdgeLead, EdgeMarker + EdgeTail, "Chrome/125");
    EdgeMarkerNot125();
    assert (EdgeMarker + EdgeTail)[1..] == EdgeMarker[1..] + EdgeTail;
    Absent(EdgeMarker[1..] + EdgeTail, "Chrome/125");
  }

  /**
   * The Edge User-Agent is classified as Chromium, and because "Chrome/124" precedes
   * "Edg/124" in the table it is sent the Google Chrome 124 sec-ch-ua value, not Edge's.
   */
  lemma EdgeGetsChromeValue()
    ensures BrowserOf(EdgeUa) == Chromium
    ensures FirstMarker(EdgeUa, SecChUaTable) == Some(SecChUaTable[1].1)
  {
    EdgeNotFirefox();
    EdgeHasChrome124();
    EdgeLacksChrome125();
    assert FirstMarkerAt(EdgeUa, SecChUaTable, 1);
  }

  /** So whatever the random picks, the Edge User-Agent is sent Chrome 124's brand list. */
  lemma EdgeHeaders(referer: string, languagePick: nat, platformPick: nat)
    requires languagePick < |AcceptLanguages| && platformPick < |DesktopPlatforms|
    ensures var h := Headers(EdgeUa, referer, languagePick, platformPick); SecChUa in h && h[SecChUa] == Chrome124Brands
  {
    EdgeGetsChromeValue();
  }
}
