/**
 * `MagicBricksInfiniteScraper` as a class over its mutable state: the session generation
 * and warm-up flag, the GETs it has sent, the URLs it has seen, and the city filters set
 * by `set_city`. Each method is proved against the functions of `Fetch`, `Urls` and
 * `Listings` that specify it.
 */
module Scraping {
  import opened Wrappers
  import Fetch
  import Urls
  import Listings
  import Text

  class Scraper {
    /** `self.session`, as a generation counter: `_make_session()` starts the next one. */
    var session: nat
    /** `self._warmed_up`. */
    var warmedUp: bool
    /** Every GET sent so far, in order. */
    var sent: seq<Fetch.Get>
    /** `self.seen_urls`. */
    var seenUrls: set<string>
    /** `self.current_city`, absent until `set_city` runs. */
    var currentCity: Option<string>
    /** `self.filters`, absent until `set_city` runs. */
    var filters: Option<Urls.Params>

    /** A fresh scraper: a new session, not warmed up, nothing seen, no city. */
    constructor ()
      ensures session == 0 && !warmedUp && sent == []
      ensures seenUrls == {} && currentCity == None && filters == None
    {
      session := 0;
      warmedUp := false;
      sent := [];
      seenUrls := {};
      currentCity := None;
      filters := None;
    }

    /** The connection part of the state, as `Fetch` sees it. */
    function Conn(): Fetch.Conn
      reads this
    {
      Fetch.Conn(session, warmedUp, sent)
    }

    /** `_warm_up`: one homepage GET unless already warmed up; the flag is set whatever the reply. */
    method WarmUp(env: Fetch.Env)
      modifies this
      ensures Conn() == Fetch.WarmUp(old(Conn()), env)
      ensures warmedUp
      ensures seenUrls == old(seenUrls) && currentCity == old(currentCity) && filters == old(filters)
    {
      if warmedUp {
        return;
      }
      sent := sent + [Fetch.WarmUpGet(Fetch.Picks(env, |sent|), session)];
      warmedUp := true;
    }

    /** `set_city`: remembers the city and adds it to the base filters. */
    method SetCity(city: string)
      modifies this
      ensures currentCity == Some(city) && filters == Some(Urls.CityFilters(city))
      ensures Conn() == old(Conn()) && seenUrls == old(seenUrls)
    {
      currentCity := Some(city);
      filters := Some(Urls.CityFilters(city));
    }

    /**
     * `build_url(page)`: the listing URL for the current filters and `page`; None before
     * `set_city`, where the source fails on the missing `filters` attribute.
     */
    function BuildUrl(page: int): (url: Option<string>)
      reads this
      ensures url.Some? <==> filters.Some?
      ensures currentCity.Some? && filters == Some(Urls.CityFilters(currentCity.value)) ==>
        url == Some(Urls.BaseUrl + "?" + "bedroom=2,3" + "&" + "proptype=" + Urls.PropertyTypes
                    + "&" + "cityName=" + currentCity.value + "&page=" + Text.IntToString(page))
    {
      if filters.None? then None
      else if currentCity.Some? then
        Urls.CityPageUrl(currentCity.value, page);
        Some(Urls.PageUrl(filters.value, page))
      else Some(Urls.PageUrl(filters.value, page))
    }

    /**
     * `fetch_page(url, is_detail)`: warm up, choose the referer, then run the attempt loop.
     * The reply and the new state are those of `Fetch.FetchPage`; nothing else changes.
     */
    method FetchPage(url: string, isDetail: bool, env: Fetch.Env) returns (html: Option<string>)
      modifies this
      ensures Fetch.Fetched(html, Conn())
        == Fetch.FetchPage(old(Conn()), url, Fetch.RefererFor(isDetail, old(currentCity)), env)
      ensures seenUrls == old(seenUrls) && currentCity == old(currentCity) && filters == old(filters)
    {
      WarmUp(env);
      var referer := Fetch.RefererFor(isDetail, currentCity);
      ghost var c := Conn();
      ghost var target := Fetch.Attempt(c, url, referer, 1, env);
      assert target == Fetch.FetchPage(old(Conn()), url, referer, env);
      var attempt := 1;
      while true
        invariant 1 <= attempt <= Fetch.MaxRetries && c == Conn() && warmedUp
        invariant Fetch.Attempt(c, url, referer, attempt, env) == target
        invariant seenUrls == old(seenUrls) && currentCity == old(currentCity) && filters == old(filters)
        decreases Fetch.MaxRetries - attempt
      {
        var stop;
        stop, html := TryOnce(url, referer, attempt, env);
        if stop {
          Fetch.AttemptStop(c, url, referer, attempt, env);
          return;
        }
        Fetch.AttemptRetry(c, url, referer, attempt, env);
        c := Conn();
        attempt := attempt + 1;
      }
    }

    /**
     * One pass of the attempt loop's body: send the GET and sort its reply. `stop` says the
     * loop ends here, with `html`; otherwise the state is the one the next attempt starts from.
     */
    method TryOnce(url: string, referer: string, attempt: nat, env: Fetch.Env) returns (stop: bool, html: Option<string>)
      requires 1 <= attempt <= Fetch.MaxRetries && warmedUp
      modifies this
      ensures var c1 := Fetch.SendPage(old(Conn()), url, referer, attempt, env);
        var reply := Fetch.Net(env, |old(sent)|);
        stop == !(Fetch.Retryable(reply) && attempt < Fetch.MaxRetries)
        && (stop ==> html == Fetch.Outcome(reply) && Conn() == c1)
        && (!stop ==> Conn() == Fetch.Next(c1, reply, attempt, env))
      ensures warmedUp
      ensures seenUrls == old(seenUrls) && currentCity == old(currentCity) && filters == old(filters)
    {
      var reply := Fetch.Net(env, |sent|);
      sent := sent + [Fetch.PageGet(url, referer, Fetch.Picks(env, |sent|), session, attempt)];
      stop, html := false, None;
      match reply {
        case Status(code, body) =>
          if code == 200 {
            return true, Some(body);
          } else if code == 403 {
            if attempt == Fetch.MaxRetries {
              return true, None;
            }
            if attempt >= 2 {
              // a fresh session, and the warm-up visit again
              session := session + 1;
              warmedUp := false;
              WarmUp(env);
            }
          } else if code != 429 {
            return true, None;
          }
        case Timeout =>
        case ConnError =>
        case OtherError =>
          return true, None;
      }
      // a retryable reply: the loop goes on unless this was the last attempt
      stop := attempt == Fetch.MaxRetries;
    }

    /**
     * The link loop of `extract_property_listings`: over the first hundred links, skip an
     * empty or already seen URL, else mark it seen and build its record.
     */
    method ExtractListings(links: seq<Listings.Link>, now: string) returns (properties: seq<Listings.Record>)
      modifies this
      ensures Listings.Collected(properties, seenUrls) == Listings.Extract(links, old(seenUrls), now)
      ensures Conn() == old(Conn()) && currentCity == old(currentCity) && filters == old(filters)
    {
      properties := [];
      var n := if |links| <= Listings.MaxLinks then |links| else Listings.MaxLinks;
      var i := 0;
      while i < n
        invariant 0 <= i <= n
        invariant Listings.Collect(links[..i], old(seenUrls), now) == Listings.Collected(properties, seenUrls)
        invariant session == old(session) && warmedUp == old(warmedUp) && sent == old(sent)
        invariant currentCity == old(currentCity) && filters == old(filters)
      {
        Listings.CollectNext(links, i, old(seenUrls), now);
        var link := links[i];
        var url := Listings.Normalize(link.href);
        if url.Some? && url.value !in seenUrls {
          seenUrls := seenUrls + {url.value};
          properties := properties + [Listings.ListingRecord(url.value, link, now)];
        }
        i := i + 1;
      }
      assert links[..n] == if |links| <= Listings.MaxLinks then links else links[..Listings.MaxLinks];
    }
  }
}
