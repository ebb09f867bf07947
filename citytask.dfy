/**
 * `scrape_single_city_task` and the result fold of `scrape_infinite_parallel`. Phase 1
 * requests listing pages 1, 2, ... of one city and stops at the first failed fetch or the
 * first page without new listings; phase 2 fetches each listing's detail page and merges
 * what it extracts over the listing; every listing is then saved once. HTML parsing is
 * supplied as the functions `parse` (a page's property links) and `parseDetail` (a detail
 * page's fields), and `now` is the `scraped_at` timestamp.
 */
module CityTask {
  import opened Wrappers
  import Fetch
  import Urls
  import Listings
  import Scraping

  type Record = Listings.Record

  /** A listing page that was requested: its number, what the fetch returned, and how many new listings it gave (`found`). */
  datatype Visit = Visit(page: int, html: Option<string>, found: nat)

  /** Phase 1 so far: the scraper's connection and seen set, the listings collected, the pages visited. */
  datatype Crawl = Crawl(conn: Fetch.Conn, seen: set<string>, props: seq<Record>, visits: seq<Visit>)

  /** `if html:` in Python: a fetch counts as successful when it returned a non-empty body. */
  predicate Succeeded(html: Option<string>) {
    html.Some? && html.value != ""
  }

  /** The listing URL of page `page` of `city`, as `build_url` gives it after `set_city(city)`. */
  function ListingUrl(city: string, page: int): string {
    Urls.PageUrl(Urls.CityFilters(city), page)
  }

  /** The state of a fresh scraper: a new session, not warmed up, nothing sent, nothing seen. */
  function Start(): Crawl {
    Crawl(Fetch.Conn(0, false, []), {}, [], [])
  }

  /** One pass of the page loop: the state after it, and the visit it adds. */
  datatype Step = Step(next: Crawl, visit: Visit)

  /**
   * Page `page` from the state `st`: fetch it with the homepage referer; a failed fetch
   * stops the loop, otherwise the page's links go through `extract_property_listings`.
   */
  function PageStep(city: string, page: int, st: Crawl, env: Fetch.Env, parse: string -> seq<Listings.Link>,
                    now: string): Step
  {
    var f := Fetch.FetchPage(st.conn, ListingUrl(city, page), Fetch.RefererFor(false, Some(city)), env);
    if !Succeeded(f.html) then
      var v := Visit(page, f.html, 0);
      Step(st.(conn := f.conn, visits := st.visits + [v]), v)
    else
      var c := Listings.Extract(parse(f.html.value), st.seen, now);
      var v := Visit(page, f.html, |c.records|);
      Step(Crawl(f.conn, c.seen, st.props + c.records, st.visits + [v]), v)
  }

  /** The loop over pages `page` to `maxPages` of phase 1, from the state `st`. */
  function Paginate(city: string, page: int, maxPages: int, st: Crawl, env: Fetch.Env,
                    parse: string -> seq<Listings.Link>, now: string): Crawl
    decreases maxPages + 1 - page
  {
    if page > maxPages then st
    else
      var s := PageStep(city, page, st, env, parse, now);
      if GoesOn(s.visit) then Paginate(city, page + 1, maxPages, s.next, env, parse, now) else s.next
  }

  /** A pass adds one visit, for its own page. */
  lemma PageStepVisit(city: string, page: int, st: Crawl, env: Fetch.Env, parse: string -> seq<Listings.Link>,
                      now: string)
    ensures var s := PageStep(city, page, st, env, parse, now);
      s.next.visits == st.visits + [s.visit] && s.visit.page == page
  {
  }

  /** Phase 1 of the task for `city`: pages 1 to `maxPages` on a fresh scraper. */
  function Listed(city: string, maxPages: int, env: Fetch.Env, parse: string -> seq<Listings.Link>, now: string): Crawl {
    Paginate(city, 1, maxPages, Start(), env, parse, now)
  }

  /** `{**prop, **detail}` when the detail fetch succeeded, else the listing unchanged. */
  function Merge(prop: Record, html: Option<string>, parseDetail: string -> Record): Record {
    if Succeeded(html) then prop + parseDetail(html.value) else prop
  }

  /** Phase 2 so far: the records saved, each detail fetch's result, and the connection. */
  datatype Enriched = Enriched(saved: seq<Record>, details: seq<Option<string>>, conn: Fetch.Conn)

  /**
   * The detail loop over `props` from the connection `conn`: each listing's detail page is
   * fetched with the detail referer; a listing without a URL raises before any request and
   * is saved unchanged.
   */
  function Enrich(props: seq<Record>, conn: Fetch.Conn, city: string, env: Fetch.Env,
                  parseDetail: string -> Record): Enriched
    decreases |props|
  {
    if |props| == 0 then Enriched([], [], conn)
    else
      var prop := props[0];
      var f := DetailFetch(prop, conn, city, env);
      var rest := Enrich(props[1..], f.conn, city, env, parseDetail);
      Enriched([Merge(prop, f.html, parseDetail)] + rest.saved, [f.html] + rest.details, rest.conn)
  }

  /** The detail fetch for one listing (none for a listing without a URL). */
  function DetailFetch(prop: Record, conn: Fetch.Conn, city: string, env: Fetch.Env): Fetch.Fetched {
    if Listings.Url in prop
    then Fetch.FetchPage(conn, prop[Listings.Url], Fetch.RefererFor(true, Some(city)), env)
    else Fetch.Fetched(None, conn)
  }

  /** One step of the detail loop, from index `i`. */
  lemma EnrichStep(props: seq<Record>, i: nat, conn: Fetch.Conn, city: string, env: Fetch.Env,
                   parseDetail: string -> Record)
    requires i < |props|
    ensures var f := DetailFetch(props[i], conn, city, env);
      Enrich(props[i..], conn, city, env, parseDetail).saved
        == [Merge(props[i], f.html, parseDetail)] + Enrich(props[i + 1..], f.conn, city, env, parseDetail).saved
  {
    assert props[i..][1..] == props[i + 1..];
  }

  /** What the task saves for `city`: the enriched listings, or the listings as found when details are off. */
  function Saved(city: string, maxPages: int, enableDetails: bool, env: Fetch.Env,
                 parse: string -> seq<Listings.Link>, parseDetail: string -> Record, now: string): seq<Record>
  {
    var listed := Listed(city, maxPages, env, parse, now);
    if enableDetails then Enrich(listed.props, listed.conn, city, env, parseDetail).saved else listed.props
  }

  /** The dictionary `scrape_single_city_task` returns. */
  datatype CityResult = CityResult(city: string, total: nat)

  /**
   * `scrape_single_city_task(city, max_pages, enable_details)`. `setupOk` says whether
   * creating the scraper (its output directory) succeeded; when it does not, the task's
   * handler returns total 0. The records saved are returned in the order they are written.
   */
  method ScrapeCity(city: string, maxPages: int, enableDetails: bool, setupOk: bool, env: Fetch.Env,
                    parse: string -> seq<Listings.Link>, parseDetail: string -> Record, now: string)
    returns (result: CityResult, saved: seq<Record>)
    ensures result.city == city && result.total == |saved|
    ensures setupOk ==> saved == Saved(city, maxPages, enableDetails, env, parse, parseDetail, now)
    ensures !setupOk ==> saved == []
  {
    if !setupOk {
      return CityResult(city, 0), [];
    }
    var scraper := new Scraping.Scraper();
    scraper.SetCity(city);
    assert scraper.Conn() == Start().conn && scraper.seenUrls == Start().seen;
    var props := ListPages(scraper, city, maxPages, env, parse, now);
    var total;
    if enableDetails {
      total, saved := SaveEnriched(scraper, props, city, env, parseDetail);
    } else {
      total, saved := SaveListings(props);
    }
    result := CityResult(city, total);
  }

  /** Phase 1: the page loop, with its two early exits, on a scraper whose city is set. */
  method ListPages(scraper: Scraping.Scraper, city: string, maxPages: int, env: Fetch.Env,
                   parse: string -> seq<Listings.Link>, now: string)
    returns (props: seq<Record>)
    requires scraper.currentCity == Some(city) && scraper.filters == Some(Urls.CityFilters(city))
    modifies scraper
    ensures var listed := Paginate(city, 1, maxPages, Crawl(old(scraper.Conn()), old(scraper.seenUrls), [], []),
                                   env, parse, now);
      props == listed.props && scraper.Conn() == listed.conn
    ensures scraper.currentCity == Some(city)
  {
    props := [];
    ghost var visits: seq<Visit> := [];
    ghost var target := Paginate(city, 1, maxPages, Crawl(scraper.Conn(), scraper.seenUrls, [], []), env, parse, now);
    var page := 1;
    while page <= maxPages
      invariant Paginate(city, page, maxPages, Crawl(scraper.Conn(), scraper.seenUrls, props, visits), env, parse, now)
        == target
      invariant scraper.currentCity == Some(city) && scraper.filters == Some(Urls.CityFilters(city))
      decreases maxPages + 1 - page
    {
      var url := scraper.BuildUrl(page);
      assert url == Some(ListingUrl(city, page));
      ghost var s := PageStep(city, page, Crawl(scraper.Conn(), scraper.seenUrls, props, visits), env, parse, now);
      var html := scraper.FetchPage(url.value, false, env);
      if html.None? || html.value == "" {
        visits := visits + [Visit(page, html, 0)];
        assert Crawl(scraper.Conn(), scraper.seenUrls, props, visits) == s.next;
        break;
      }
      var properties := scraper.ExtractListings(parse(html.value), now);
      props := props + properties;
      visits := visits + [Visit(page, html, |properties|)];
      assert Crawl(scraper.Conn(), scraper.seenUrls, props, visits) == s.next;
      if |properties| == 0 {
        break;
      }
      page := page + 1;
    }
  }

  /** Phase 2 with details on: fetch each listing's detail page, merge, and save it. */
  method SaveEnriched(scraper: Scraping.Scraper, props: seq<Record>, city: string, env: Fetch.Env,
                      parseDetail: string -> Record)
    returns (total: nat, saved: seq<Record>)
    requires scraper.currentCity == Some(city)
    modifies scraper
    ensures saved == old(Enrich(props, scraper.Conn(), city, env, parseDetail)).saved && total == |saved|
  {
    total, saved := 0, [];
    ghost var enriched := Enrich(props, scraper.Conn(), city, env, parseDetail);
    var i := 0;
    while i < |props|
      invariant 0 <= i <= |props| && total == |saved|
      invariant saved + Enrich(props[i..], scraper.Conn(), city, env, parseDetail).saved == enriched.saved
      invariant scraper.currentCity == Some(city)
    {
      EnrichStep(props, i, scraper.Conn(), city, env, parseDetail);
      ghost var f := DetailFetch(props[i], scraper.Conn(), city, env);
      ghost var rest := Enrich(props[i + 1..], f.conn, city, env, parseDetail).saved;
      var merged := EnrichOne(scraper, props[i], city, env, parseDetail);
      assert (saved + [merged]) + rest == saved + ([merged] + rest);
      saved := saved + [merged];
      total := total + 1;
      i := i + 1;
    }
  }

  /** The body of the detail loop for one listing: its detail fetch and the merged record. */
  method EnrichOne(scraper: Scraping.Scraper, prop: Record, city: string, env: Fetch.Env,
                   parseDetail: string -> Record)
    returns (merged: Record)
    requires scraper.currentCity == Some(city)
    modifies scraper
    ensures var f := DetailFetch(prop, old(scraper.Conn()), city, env);
      merged == Merge(prop, f.html, parseDetail) && scraper.Conn() == f.conn
    ensures scraper.currentCity == Some(city)
  {
    merged := prop;
    if Listings.Url in prop {
      var detailHtml := scraper.FetchPage(prop[Listings.Url], true, env);
      if detailHtml.Some? && detailHtml.value != "" {
        merged := prop + parseDetail(detailHtml.value);
      }
    }
  }

  /** Phase 2 with details off: every listing is saved as it was found. */
  method SaveListings(props: seq<Record>) returns (total: nat, saved: seq<Record>)
    ensures saved == props && total == |props|
  {
    total, saved := 0, [];
    var i := 0;
    while i < |props|
      invariant 0 <= i <= |props| && total == |saved| && saved == props[..i]
    {
      saved := saved + [props[i]];
      total := total + 1;
      i := i + 1;
    }
  }
  // ----- Pagination -----

  /** The visits from index `k` on are pages `page`, `page + 1`, ... */
  predicate Numbered(visits: seq<Visit>, k: nat, page: int) {
    k <= |visits| && forall i :: k <= i < |visits| ==> visits[i].page == page + (i - k)
  }

  /** A page after which the loop goes on: its fetch succeeded and it gave new listings. */
  predicate GoesOn(v: Visit) {
    Succeeded(v.html) && v.found > 0
  }

  /**
   * Of the visits from index `k` on, every one but the last went on, and the last one
   * stopped the loop (a failed fetch or no new listings) unless it was page `maxPages`.
   */
  predicate StopsOnlyAtEnd(visits: seq<Visit>, k: nat, maxPages: int) {
    && (forall i :: k <= i < |visits| - 1 ==> GoesOn(visits[i]))
    && (k < |visits| ==> !GoesOn(visits[|visits| - 1]) || visits[|visits| - 1].page == maxPages)
  }

  /** How many pages `page` to `maxPages` there are. */
  function PagesLeft(page: int, maxPages: int): nat {
    if maxPages < page then 0 else maxPages - page + 1
  }

  /**
   * The visits `vs` extend `prev` by pages `page`, `page + 1`, ... in order, at least one
   * when `page <= maxPages` and never one beyond `maxPages`, and stop at the first page that
   * failed or gave nothing new.
   */
  predicate VisitsFrom(vs: seq<Visit>, prev: seq<Visit>, page: int, maxPages: int) {
    var k := |prev|;
    && Numbered(vs, k, page) && vs[..k] == prev
    && |vs| - k <= PagesLeft(page, maxPages)
    && (page <= maxPages ==> k < |vs|)
    && StopsOnlyAtEnd(vs, k, maxPages)
  }

  /** The loop from `page` adds the visits `VisitsFrom` describes. */
  lemma {:induction false} PaginateVisits(city: string, page: int, maxPages: int, st: Crawl, env: Fetch.Env,
                                          parse: string -> seq<Listings.Link>, now: string)
    ensures VisitsFrom(Paginate(city, page, maxPages, st, env, parse, now).visits, st.visits, page, maxPages)
    decreases maxPages + 1 - page
  {
    if page <= maxPages {
      var s := PageStep(city, page, st, env, parse, now);
      PageStepVisit(city, page, st, env, parse, now);
      if GoesOn(s.visit) {
        PaginateVisits(city, page + 1, maxPages, s.next, env, parse, now);
        var r := Paginate(city, page + 1, maxPages, s.next, env, parse, now);
        ShiftVisits(r.visits, st.visits, s.visit, page, maxPages);
      } else {
        LastVisit(st.visits, s.visit, page, maxPages);
      }
    } else {
      assert st.visits[..|st.visits|] == st.visits;
    }
  }

  /** A stopping visit appended to the visits so far. */
  lemma LastVisit(prev: seq<Visit>, v: Visit, page: int, maxPages: int)
    requires v.page == page && page <= maxPages && !GoesOn(v)
    ensures VisitsFrom(prev + [v], prev, page, maxPages)
  {
    assert (prev + [v])[..|prev|] == prev;
  }

  /** The visits after a page that went on, seen from that page. */
  lemma ShiftVisits(vs: seq<Visit>, prev: seq<Visit>, v: Visit, page: int, maxPages: int)
    requires v.page == page && page <= maxPages && GoesOn(v)
    requires VisitsFrom(vs, prev + [v], page + 1, maxPages)
    ensures VisitsFrom(vs, prev, page, maxPages)
  {
    var k := |prev|;
    assert vs[..k + 1] == prev + [v];
    assert vs[k] == (prev + [v])[k] == v;
    assert vs[..k] == (prev + [v])[..k] == prev;
  }

  /**
   * Pagination requests pages 1, 2, ... in strictly increasing order, never beyond
   * `maxPages`, at least page 1 when `maxPages >= 1`, and stops after the first failed
   * fetch or the first page without new listings.
   */
  lemma ListedVisits(city: string, maxPages: int, env: Fetch.Env, parse: string -> seq<Listings.Link>, now: string)
    ensures var vs := Listed(city, maxPages, env, parse, now).visits;
      && (forall i :: 0 <= i < |vs| ==> vs[i].page == i + 1)
      && |vs| <= PagesLeft(1, maxPages)
      && (maxPages >= 1 ==> |vs| > 0)
      && (forall i :: 0 <= i < |vs| - 1 ==> Succeeded(vs[i].html) && vs[i].found > 0)
      && (|vs| > 0 && vs[|vs| - 1].page < maxPages ==> !Succeeded(vs[|vs| - 1].html) || vs[|vs| - 1].found == 0)
  {
    PaginateVisits(city, 1, maxPages, Start(), env, parse, now);
    FirstVisits(Listed(city, maxPages, env, parse, now).visits, maxPages);
  }

  /** `VisitsFrom` for a crawl that started with no visits, from page 1. */
  lemma FirstVisits(vs: seq<Visit>, maxPages: int)
    requires VisitsFrom(vs, [], 1, maxPages)
    ensures forall i :: 0 <= i < |vs| ==> vs[i].page == i + 1
    ensures |vs| <= PagesLeft(1, maxPages) && (maxPages >= 1 ==> |vs| > 0)
    ensures forall i :: 0 <= i < |vs| - 1 ==> Succeeded(vs[i].html) && vs[i].found > 0
    ensures |vs| > 0 && vs[|vs| - 1].page < maxPages ==> !Succeeded(vs[|vs| - 1].html) || vs[|vs| - 1].found == 0
  {
  }

  // ----- No listing twice -----

  /** The listings' URLs are pairwise distinct and are exactly the seen set. */
  predicate NoRepeats(props: seq<Record>, seen: set<string>) {
    var us := Listings.RecordUrls(props);
    Listings.Distinct(us) && seen == (set u | u in us)
  }

  /** The listings of one more page keep `NoRepeats`: the seen set is shared by all pages. */
  lemma NoRepeatsStep(props: seq<Record>, seen: set<string>, links: seq<Listings.Link>, now: string)
    requires NoRepeats(props, seen)
    ensures var c := Listings.Extract(links, seen, now); NoRepeats(props + c.records, c.seen)
  {
    var c := Listings.Extract(links, seen, now);
    Listings.ExtractFresh(links, seen, now);
    Listings.RecordUrlsAppend(props, c.records);
    var ua := Listings.RecordUrls(props);
    var ub := Listings.RecordUrls(c.records);
    var us := ua + ub;
    assert Listings.Distinct(us) by {
      forall i, j | 0 <= i < j < |us| ensures us[i] != us[j] {
        if j < |ua| {
          assert us[i] == ua[i] && us[j] == ua[j];
        } else if i >= |ua| {
          assert us[i] == ub[i - |ua|] && us[j] == ub[j - |ua|];
        } else {
          assert us[i] == ua[i] && ua[i] in seen;
          assert us[j] == ub[j - |ua|] && ub[j - |ua|] !in seen;
        }
      }
    }
    assert (set u | u in us) == (set u | u in ua) + (set u | u in ub);
  }

  /** `NoRepeats` holds through the page loop. */
  lemma {:induction false} PaginateNoRepeats(city: string, page: int, maxPages: int, st: Crawl, env: Fetch.Env,
                                             parse: string -> seq<Listings.Link>, now: string)
    requires NoRepeats(st.props, st.seen)
    ensures var r := Paginate(city, page, maxPages, st, env, parse, now); NoRepeats(r.props, r.seen)
    decreases maxPages + 1 - page
  {
    if page <= maxPages {
      var s := PageStep(city, page, st, env, parse, now);
      PageStepNoRepeats(city, page, st, env, parse, now);
      if GoesOn(s.visit) {
        PaginateNoRepeats(city, page + 1, maxPages, s.next, env, parse, now);
      }
    }
  }

  /** A pass keeps `NoRepeats`. */
  lemma PageStepNoRepeats(city: string, page: int, st: Crawl, env: Fetch.Env, parse: string -> seq<Listings.Link>,
                          now: string)
    requires NoRepeats(st.props, st.seen)
    ensures var s := PageStep(city, page, st, env, parse, now); NoRepeats(s.next.props, s.next.seen)
  {
    var f := Fetch.FetchPage(st.conn, ListingUrl(city, page), Fetch.RefererFor(false, Some(city)), env);
    if Succeeded(f.html) {
      NoRepeatsStep(st.props, st.seen, parse(f.html.value), now);
    }
  }

  /**
   * A city's listings never repeat a URL, across all its pages, and the scraper ends up
   * having seen exactly their URLs.
   */
  lemma ListedNoRepeats(city: string, maxPages: int, env: Fetch.Env, parse: string -> seq<Listings.Link>, now: string)
    ensures var l := Listed(city, maxPages, env, parse, now); var us := Listings.RecordUrls(l.props);
      Listings.Distinct(us) && l.seen == (set u | u in us)
  {
    assert Listings.RecordUrls([]) == [];
    PaginateNoRepeats(city, 1, maxPages, Start(), env, parse, now);
  }

  // ----- Details and totals -----

  /**
   * `{**prop, **detail}`: a successful detail fetch adds the detail's fields and overrides the
   * listing's on a clash; the listing's other fields stay; a failed fetch leaves it unchanged.
   */
  lemma MergeSpec(prop: Record, html: Option<string>, parseDetail: string -> Record)
    ensures var m := Merge(prop, html, parseDetail);
      && (!Succeeded(html) ==> m == prop)
      && (Succeeded(html) ==> var d := parseDetail(html.value);
            && m.Keys == prop.Keys + d.Keys
            && (forall k :: k in d ==> m[k] == d[k])
            && (forall k :: k in prop && k !in d ==> m[k] == prop[k]))
  {
  }

  /**
   * Every listing is saved exactly once and in order: the `i`-th saved record is the
   * `i`-th listing merged with its own detail fetch, and a listing without a URL gets none.
   */
  lemma {:induction false} EnrichShape(props: seq<Record>, conn: Fetch.Conn, city: string, env: Fetch.Env,
                                       parseDetail: string -> Record)
    ensures var e := Enrich(props, conn, city, env, parseDetail);
      && |e.saved| == |props| && |e.details| == |props|
      && (forall i :: 0 <= i < |props| ==> e.saved[i] == Merge(props[i], e.details[i], parseDetail))
      && (forall i :: 0 <= i < |props| && Listings.Url !in props[i] ==> e.details[i] == None)
    decreases |props|
  {
    if |props| > 0 {
      var f := DetailFetch(props[0], conn, city, env);
      EnrichShape(props[1..], f.conn, city, env, parseDetail);
      var rest := Enrich(props[1..], f.conn, city, env, parseDetail);
      var e := Enrich(props, conn, city, env, parseDetail);
      forall i | 0 < i < |props|
        ensures e.saved[i] == Merge(props[i], e.details[i], parseDetail)
        ensures Listings.Url !in props[i] ==> e.details[i] == None
      {
        assert e.saved[i] == rest.saved[i - 1] && e.details[i] == rest.details[i - 1];
        assert props[i] == props[1..][i - 1];
      }
    }
  }

  /**
   * The task saves every listing it found exactly once: as many records as listings, and
   * the listings themselves when details are off.
   */
  lemma SavedAll(city: string, maxPages: int, enableDetails: bool, env: Fetch.Env,
                 parse: string -> seq<Listings.Link>, parseDetail: string -> Record, now: string)
    ensures var listed := Listed(city, maxPages, env, parse, now);
      var saved := Saved(city, maxPages, enableDetails, env, parse, parseDetail, now);
      && |saved| == |listed.props|
      && (!enableDetails ==> saved == listed.props)
      && (enableDetails ==> forall i :: 0 <= i < |saved| ==> listed.props[i].Keys <= saved[i].Keys)
  {
    var listed := Listed(city, maxPages, env, parse, now);
    EnrichShape(listed.props, listed.conn, city, env, parseDetail);
    var e := Enrich(listed.props, listed.conn, city, env, parseDetail);
    forall i | 0 <= i < |e.saved| && enableDetails ensures listed.props[i].Keys <= e.saved[i].Keys {
      MergeSpec(listed.props[i], e.details[i], parseDetail);
    }
  }

  // ----- The result fold of `scrape_infinite_parallel` -----

  /** `CITIES`: one task is submitted per city. */
  const Cities: seq<string> :=
    ["Delhi-NCR", "Bangalore", "Mumbai", "Hyderabad", "Pune", "Chennai", "Kolkata", "Ahmedabad", "Jaipur", "Indore"]

  /** A finished future: its city, and its result, or None when `future.result()` raised. */
  datatype Completion = Completion(city: string, outcome: Option<CityResult>)

  /** The entry `city_results` gets for a completion: a raising future counts 0 for its city. */
  function ResultOf(c: Completion): CityResult {
    if c.outcome.Some? then c.outcome.value else CityResult(c.city, 0)
  }

  /** The sum of the totals of a run of completions. */
  function TotalOf(cs: seq<Completion>): nat
    decreases |cs|
  {
    if |cs| == 0 then 0 else TotalOf(cs[..|cs| - 1]) + ResultOf(cs[|cs| - 1]).total
  }

  /**
   * The loop over `as_completed(futures)`, in the order the futures completed: it appends
   * each result and adds its total.
   */
  method FoldResults(completions: seq<Completion>) returns (total: nat, cityResults: seq<CityResult>)
    ensures total == TotalOf(completions)
    ensures |cityResults| == |completions|
    ensures forall i :: 0 <= i < |completions| ==> cityResults[i] == ResultOf(completions[i])
  {
    total, cityResults := 0, [];
    var i := 0;
    while i < |completions|
      invariant 0 <= i <= |completions| && |cityResults| == i
      invariant total == TotalOf(completions[..i])
      invariant forall j :: 0 <= j < i ==> cityResults[j] == ResultOf(completions[j])
    {
      assert completions[..i + 1][..i] == completions[..i];
      var c := completions[i];
      if c.outcome.Some? {
        cityResults := cityResults + [c.outcome.value];
        total := total + c.outcome.value.total;
      } else {
        cityResults := cityResults + [CityResult(c.city, 0)];
      }
      i := i + 1;
    }
    assert completions[..i] == completions;
  }

  /** Taking one completion out of the run takes its total out of the sum. */
  lemma {:induction false} TotalRemove(cs: seq<Completion>, j: nat)
    requires j < |cs|
    ensures TotalOf(cs) == TotalOf(cs[..j] + cs[j + 1..]) + ResultOf(cs[j]).total
    decreases |cs|
  {
    var n := |cs|;
    var t := cs[..j] + cs[j + 1..];
    if j == n - 1 {
      assert t == cs[..n - 1];
    } else {
      var init := cs[..n - 1];
      TotalRemove(init, j);
      assert init[j] == cs[j];
      assert t[..|t| - 1] == init[..j] + init[j + 1..];
      assert t[|t| - 1] == cs[n - 1];
    }
  }

  /**
   * The total does not depend on the order in which the futures complete: any two
   * completion orders of the same results give the same sum.
   */
  lemma {:induction false} TotalOrderless(a: seq<Completion>, b: seq<Completion>)
    requires multiset(a) == multiset(b)
    ensures TotalOf(a) == TotalOf(b)
    decreases |a|
  {
    if |a| == 0 {
      assert |b| == |multiset(b)| == 0;
    } else {
      var n := |a|;
      var x := a[n - 1];
      assert a == a[..n - 1] + [x];
      assert x in multiset(b);
      var j :| 0 <= j < |b| && b[j] == x;
      var rest := b[..j] + b[j + 1..];
      assert b == b[..j] + [x] + b[j + 1..];
      assert multiset(b) == multiset(b[..j]) + multiset{x} + multiset(b[j + 1..]);
      assert multiset(rest) == multiset(b[..j]) + multiset(b[j + 1..]);
      assert multiset(a) == multiset(a[..n - 1]) + multiset{x};
      assert multiset(a[..n - 1]) == multiset(a) - multiset{x} == multiset(rest);
      TotalOrderless(a[..n - 1], rest);
      TotalRemove(b, j);
    }
  }
}
