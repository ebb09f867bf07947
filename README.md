# MagicBricks scraper and price-intelligence API, modelled in Dafny

The repository has two parts:

- A scraper for the MagicBricks property portal. It walks the listing pages of ten Indian cities and fetches each listing's detail page. It disguises its requests with browser-matched headers, and retries with backoff and fresh sessions when the site blocks it.
- A small HTTP API. It serves price estimates from a trained model, a market heat map, health information and two admin endpoints.

This project models the decision logic of both parts and proves properties of it.

- **Headers** (`headers.dfy`): `_get_headers_for_ua`.
  - The User-Agent is classified as Firefox, Safari-only or Chromium by substring tests.
  - The header map is filled in for that family.
  - The first marker of `SEC_CH_UA_MAP` found in the User-Agent decides `sec-ch-ua`.
  - The two `random.choice` draws are parameters.
- **Urls** (`urls.dfy`): `set_city` and `build_url`. The filter dictionary is modelled as an insertion-ordered list of pairs, and the page URL is read back for a round trip.
- **Fetch** (`fetch.dfy`): `_warm_up` and the four-attempt loop of `fetch_page`, as functions on the connection state.
  - The connection state is the session generation, the warm-up flag and the log of every GET sent.
  - The outside world is an `Env`: the reply to each GET, and the draws made for it, indexed by how many GETs went out before it.
- **Scraping** (`scraper.dfy`): the scraper class.
  - Its fields are `session`, `_warmed_up`, `seen_urls`, `current_city` and `filters`.
  - Its methods are proved against the functions above. `FetchPage` keeps the source's attempt loop.
- **Listings** (`listings.dfy`): the link loop of `extract_property_listings`.
  - It looks at the first 100 links only.
  - Each href is stripped and made absolute.
  - Empty and already-seen URLs are skipped.
  - A record is built from the slug captures, with the property type and title rules.
- **CityTask** (`citytask.dfy`): `scrape_single_city_task` and the result fold of `scrape_infinite_parallel`.
  - Phase 1 requests listing pages until a failed fetch, a page without new listings, or `max_pages`.
  - Phase 2 requests detail pages and merges the results.
  - The fold adds up the per-city totals, and a raising task counts 0.
- **Serving** (`serving.dfy`): the integer and label rules of the API.
  - The `estimate_price` guards, and its fallback to "Other" and "Apartment" for unknown labels.
  - The HOT/WARM/COOL tier.
  - Grouping locations seen fewer than 20 times into "Other".
  - The `X-API-Key` gate of the admin endpoints.
  - The health status.
- **Text** (`text.dfy`) and **Wrappers** (`wrappers.dfy`): the Python string operations the model needs (`in`, `strip`, `split`, `join`, `replace`, `str(int)`) and an `Option` type.

Three facts about the code shape the model of `fetch_page`:

- Every 200 reply is a success, whatever its body.
- The warm-up is one homepage GET.
- Every request draws a new User-Agent.

One consequence of the source is worth knowing. The Edge User-Agent of the pool also contains "Chrome/124", and `SEC_CH_UA_MAP` lists "Chrome/124" before "Edg/124". So Edge is always sent Google Chrome's brand list (`Headers.EdgeHeaders`).

## Model

| member | source | states |
|---|---|---|
| Headers.BuildHeaders | src/scrapers/magicbricks_scraper.py:65-109 | classifying the User-Agent once and assigning the headers one by one yields exactly the map `Headers` specifies: the common part, overlaid with the family part, then sec-ch-ua |
| Headers.AssignHeaders | src/scrapers/magicbricks_scraper.py:71-102 | the assignments up to sec-ch-ua yield the common headers overlaid with the family headers |
| Headers.AssignFirefoxHeaders | src/scrapers/magicbricks_scraper.py:85-91 | the six Firefox assignments add Accept, DNT and the four Sec-Fetch headers over the input map |
| Headers.AssignChromiumHeaders | src/scrapers/magicbricks_scraper.py:94-102 | the Chromium assignments add Accept, Sec-Fetch-*, sec-ch-ua-mobile and sec-ch-ua-platform over the input map |
| Headers.AssignSecChUa | src/scrapers/magicbricks_scraper.py:103-107 | only a Chromium map gets sec-ch-ua, and only when a table marker is found |
| Headers.FindSecChUa | src/scrapers/magicbricks_scraper.py:104-107 | the loop with `break` returns the value of the first marker, in table order, that occurs in the User-Agent, or nothing |
| Headers.FirstMarkerSpec | src/scrapers/magicbricks_scraper.py:104-107 | the lookup finds nothing exactly when no marker occurs; otherwise it finds the value of an entry whose marker occurs and no earlier marker does |
| Headers.FirstMarkerUnique | src/scrapers/magicbricks_scraper.py:104-107 | at most one entry is the first match |
| Headers.HeadersForCommon | src/scrapers/magicbricks_scraper.py:71-83 | User-Agent, Referer and Accept-Language are the inputs and the picked language, for every family |
| Headers.HeadersForAccept | src/scrapers/magicbricks_scraper.py:85-96 | Accept is always present and is the family's value |
| Headers.HeadersForKeys | src/scrapers/magicbricks_scraper.py:71-102 | the header names set are exactly the seven common ones plus the family's |
| Headers.HeadersForNoHints | src/scrapers/magicbricks_scraper.py:85-93 | the Firefox and Safari-only maps carry none of the three client-hint headers |
| Headers.HeadersForHints | src/scrapers/magicbricks_scraper.py:101-102 | for Chromium, sec-ch-ua-mobile is "?1" exactly for a mobile User-Agent, and the platform is "Android" for mobile, else the picked desktop platform |
| Headers.HeadersForLacksSecChUa | src/scrapers/magicbricks_scraper.py:71-102 | sec-ch-ua never comes from the family part, only from the table |
| Headers.SecChUaOf | src/scrapers/magicbricks_scraper.py:103-107 | merging the table's value into a map without sec-ch-ua adds it exactly for Chromium with a matching marker, with the first match's value |
| Headers.HeadersSplit | src/scrapers/magicbricks_scraper.py:103-107 | the sec-ch-ua step changes no other header |
| Headers.HeadersCommon | src/scrapers/magicbricks_scraper.py:71-96 | in the final map, User-Agent and Referer are the inputs, Accept-Language is the picked value and Accept is the family's |
| Headers.HeadersHints | src/scrapers/magicbricks_scraper.py:67-102 | Firefox and Safari-only requests carry no client hints; a Chromium request carries both hints, with "?1" exactly for "Mobile" or "Android" User-Agents |
| Headers.HeadersSecChUa | src/scrapers/magicbricks_scraper.py:103-107 | sec-ch-ua is present exactly for a Chromium User-Agent containing some table marker, and it holds the first matching entry's value |
| Headers.WireInjective | src/scrapers/magicbricks_scraper.py:71-102 | distinct header names are sent under distinct wire names |
| Headers.EdgeIsInPool | src/scrapers/magicbricks_scraper.py:50 | the eighth User-Agent of the pool is the Edge one |
| Headers.EdgeNotFirefox | src/scrapers/magicbricks_scraper.py:68 | the Edge User-Agent is not classified as Firefox |
| Headers.EdgeHasChrome124 | src/scrapers/magicbricks_scraper.py:60 | the Edge User-Agent contains "Chrome" and "Chrome/124" |
| Headers.EdgeLacksChrome125 | src/scrapers/magicbricks_scraper.py:59 | the Edge User-Agent does not contain "Chrome/125" |
| Headers.EdgeGetsChromeValue | src/scrapers/magicbricks_scraper.py:58-62 | the Edge User-Agent is Chromium, and its first table match is the Chrome 124 entry, not Edge's |
| Headers.EdgeHeaders | src/scrapers/magicbricks_scraper.py:104-107 | whatever the random picks, the Edge User-Agent is sent Chrome 124's brand list as sec-ch-ua |
| Text.ContainsIffOccurs | src/scrapers/magicbricks_scraper.py:67-69 | the substring test `sub in s` holds exactly when `sub` occurs at some position of `s` |
| Text.StripSpec | src/scrapers/magicbricks_scraper.py:285 | `strip()` gives the empty string exactly for an all-whitespace input; otherwise the result neither starts nor ends with whitespace |
| Text.StripIsSlice | src/scrapers/magicbricks_scraper.py:285 | what `strip()` leaves is a contiguous slice of the input |
| Text.ReplaceChar | src/scrapers/magicbricks_scraper.py:321 | `replace('-', ' ')` keeps the length, turns every dash into a space and leaves every other character |
| Text.LastSegment | src/scrapers/magicbricks_scraper.py:304 | the slug is the suffix after the last '/', or the whole URL if it has none; it holds no '/' |
| Text.NatToString | src/scrapers/magicbricks_scraper.py:193 | `str(n)` is all decimal digits with no leading zero |
| Text.IntToString | src/scrapers/magicbricks_scraper.py:193 | the printed page number contains neither '&' nor '=' |
| Text.ParseNatToString | src/scrapers/magicbricks_scraper.py:193 | the printed page number reads back as the same number |
| Urls.Put | src/scrapers/magicbricks_scraper.py:188 | a dict assignment gives the key the new value and changes no other key; a new key goes last, an existing key keeps its place |
| Urls.CityFiltersShape | src/scrapers/magicbricks_scraper.py:185-188 | `set_city` gives the filters bedroom, proptype and cityName, in that order, with the city's value |
| Urls.LookupAppend | src/scrapers/magicbricks_scraper.py:188 | keys added later do not change an earlier key's value |
| Urls.Pairs | src/scrapers/magicbricks_scraper.py:192 | there is one `key=value` item per filter |
| Urls.CityPageUrl | src/scrapers/magicbricks_scraper.py:190-193 | the page URL of a city is the base URL, "?", the three filters joined by "&", and "&page=" with the page number |
| Urls.QuerySnoc | src/scrapers/magicbricks_scraper.py:192 | one more printable filter adds exactly one `&key=value` item to the query |
| Urls.QueryRoundTrip | src/scrapers/magicbricks_scraper.py:192 | reading the joined query back gives the filters, in order |
| Urls.PageUrlRoundTrip | src/scrapers/magicbricks_scraper.py:190-193 | the query part of a built URL reads back as the filters followed by the page number |
| Urls.CityFiltersPrintable | src/scrapers/magicbricks_scraper.py:131-134 | the base filters and a city without '&' print unambiguously |
| Urls.PropertyTypesPrintable | src/scrapers/magicbricks_scraper.py:133 | the property-type filter holds no '&' |
| Urls.CityPageUrlRoundTrip | src/scrapers/magicbricks_scraper.py:185-193 | a city's page URL reads back to the city and the page, provided the city has no '&' |
| Fetch.PoolSizes | src/scrapers/magicbricks_scraper.py:37-55 | the pools the draws are reduced over have 10 User-Agents, 3 languages and 3 platforms |
| Fetch.WarmUpIdempotent | src/scrapers/magicbricks_scraper.py:161-179 | the warm-up sends one homepage GET unless already warmed up, always leaves the flag set, keeps the session, and a second warm-up does nothing |
| Fetch.AttemptRetry | src/scrapers/magicbricks_scraper.py:212-263 | after a retryable reply before the last attempt, the loop continues with the next attempt from the renewed or unchanged state |
| Fetch.AttemptStop | src/scrapers/magicbricks_scraper.py:229-268 | otherwise the loop ends after this attempt's GET, with the body of a 200 or None |
| Fetch.NextSpec | src/scrapers/magicbricks_scraper.py:237-244 | a 403 on attempt 2 or 3 opens a new session and warms it up with one GET; any other retry keeps the state |
| Fetch.AttemptBranches | src/scrapers/magicbricks_scraper.py:212-268 | each reply case: 200 returns its body; 403 retries (on a new session from attempt 2); 429, timeouts and connection errors retry; on the last attempt all of these give None, as do any other status and any other exception, at once |
| Fetch.Sends | src/scrapers/magicbricks_scraper.py:234-244 | an attempt sends its own page GET first, plus the new session's warm-up exactly when it renews |
| Fetch.SendsCounts | src/scrapers/magicbricks_scraper.py:234-244 | an attempt sends one page GET, plus one warm-up exactly when the session is renewed |
| Fetch.AttemptsEnds | src/scrapers/magicbricks_scraper.py:212-268 | a run starts with its first attempt's GET and ends on a non-retryable reply or on attempt 4, returning the body of a final 200 or None |
| Fetch.AttemptsPages | src/scrapers/magicbricks_scraper.py:212 | a run from attempt `a` sends one page GET per attempt from `a` up to its last, never beyond attempt 4 |
| Fetch.AttemptsSessions | src/scrapers/magicbricks_scraper.py:240-244 | the session advances once per warm-up in the run, and at most once for each of attempts 2 and 3 still ahead |
| Fetch.AttemptsContinue | src/scrapers/magicbricks_scraper.py:212-263 | every page GET but the last had a retryable reply and is followed by the next attempt, on the same session or on a renewed one |
| Fetch.AttemptsWarmUps | src/scrapers/magicbricks_scraper.py:240-244 | every warm-up inside the loop directly follows a 403 on attempt 2 or 3 |
| Fetch.FetchPageRun | src/scrapers/magicbricks_scraper.py:195-268 | `fetch_page` keeps the earlier log, adds the warm-up GET when not yet warmed up, then the attempt run, and returns the run's result with the flag set |
| Fetch.FetchPageStart | src/scrapers/magicbricks_scraper.py:203-215 | the first page GET is attempt 1 on the current session, preceded by a warm-up only when not yet warmed up |
| Fetch.FetchPageEnds | src/scrapers/magicbricks_scraper.py:229-268 | `fetch_page` returns the body of its last GET's reply when that was a 200, else None; it ends only on a non-retryable reply or on attempt 4 |
| Fetch.SentHeadersSpec | src/scrapers/magicbricks_scraper.py:166-168 | a GET carries the User-Agent and Accept-Language its draws select; its Referer is the Google search page for the warm-up visit and the request's own referer for a page GET |
| Fetch.AttemptsTargets | src/scrapers/magicbricks_scraper.py:212-227 | every page GET of the attempt loop asks for the same URL with the same referer, across retries and new sessions |
| Fetch.FetchPageTargets | src/scrapers/magicbricks_scraper.py:203-231 | every page GET `fetch_page` adds asks for its URL and sends its referer as the Referer header; the `referer = url` on a 200 is followed by the return, so it never reaches a later attempt |
| Fetch.LogTargets | src/scrapers/magicbricks_scraper.py:214-215 | in a log whose GETs past the warm-up are a run's GETs, every page GET has the run's URL and referer, and so sends that referer as its Referer header |
| Fetch.FetchPageBounds | src/scrapers/magicbricks_scraper.py:199-244 | one `fetch_page` sends 1 to 4 page GETs and creates at most two new sessions |
| Fetch.FetchPageSteps | src/scrapers/magicbricks_scraper.py:212-263 | inside `fetch_page`, every retry follows a retryable reply, and every warm-up follows a 403 on attempt 2 or 3 |
| Fetch.RetryableBeforeLast | src/scrapers/magicbricks_scraper.py:234-263 | every page GET before the last had a retryable reply |
| Fetch.StopsAtOnce | src/scrapers/magicbricks_scraper.py:254-266 | an unexpected status or exception ends `fetch_page` at that GET with None |
| Scraping.Scraper.constructor | src/scrapers/magicbricks_scraper.py:136-144 | a fresh scraper has a new session, is not warmed up, has seen nothing and has no city |
| Scraping.Scraper.WarmUp | src/scrapers/magicbricks_scraper.py:161-179 | the connection state becomes the one `Fetch.WarmUp` gives, the flag is set, and nothing else changes |
| Scraping.Scraper.SetCity | src/scrapers/magicbricks_scraper.py:185-188 | the city is set and the filters become the base filters plus cityName; the connection and seen set are unchanged |
| Scraping.Scraper.BuildUrl | src/scrapers/magicbricks_scraper.py:190-193 | there is a URL exactly when filters are set; after `set_city` it is base URL, bedroom, proptype, cityName and page, in that order |
| Scraping.Scraper.FetchPage | src/scrapers/magicbricks_scraper.py:195-268 | the attempt loop returns the reply and leaves the connection state that `Fetch.FetchPage` specifies, with the referer chosen by `is_detail`; nothing else changes |
| Scraping.Scraper.TryOnce | src/scrapers/magicbricks_scraper.py:213-266 | one loop body sends the GET; it stops with the outcome on a non-retryable reply or on the last attempt; otherwise it leaves the state the next attempt starts from |
| Scraping.Scraper.ExtractListings | src/scrapers/magicbricks_scraper.py:283-340 | the records returned and the new seen set are those of `Listings.Extract` on the old seen set; the connection is unchanged |
| Listings.NormalizeSpec | src/scrapers/magicbricks_scraper.py:285-292 | a link is skipped exactly when its href is all whitespace; an absolute URL is kept stripped, and a relative one gets the site root in front |
| Listings.RecordFixedFields | src/scrapers/magicbricks_scraper.py:301-339 | every record carries its URL, a title and the time stamp, and no price |
| Listings.RecordOptionalFields | src/scrapers/magicbricks_scraper.py:306-314 | bhk and area_sqft are present exactly when captured, with the captured text |
| Listings.RecordTypeAndLocation | src/scrapers/magicbricks_scraper.py:316-327 | the property type is present exactly when found; the location is present exactly when captured, with dashes as spaces |
| Listings.ListingRecordFields | src/scrapers/magicbricks_scraper.py:301-339 | the record the loop builds has its type exactly when the URL's last segment names a candidate type |
| Listings.TitleSpec | src/scrapers/magicbricks_scraper.py:329-337 | the title is "Property Listing" when nothing is known; for each of the seven other combinations of known BHK, type and location it is the known parts "<bhk> BHK", the type and "in <location>", in that order, joined by single spaces |
| Listings.PropertyTypeSpec | src/scrapers/magicbricks_scraper.py:317-322 | no type is found exactly when the slug contains no candidate; otherwise the type is the first contained candidate, with dashes as spaces |
| Listings.CollectNext | src/scrapers/magicbricks_scraper.py:283-340 | one more link either is skipped (empty or already seen) or is marked seen and appends its record |
| Listings.CollectLength | src/scrapers/magicbricks_scraper.py:283-340 | at most one record per link |
| Listings.CollectStep | src/scrapers/magicbricks_scraper.py:298-340 | an appended record carries the URL it was built for |
| Listings.CollectFresh | src/scrapers/magicbricks_scraper.py:294-298 | the URLs returned are pairwise distinct and were not seen before, and the seen set grows by exactly them |
| Listings.CollectSeen | src/scrapers/magicbricks_scraper.py:294-298 | afterwards the seen set is the old one plus every normalised URL of the links |
| Listings.CollectUrls | src/scrapers/magicbricks_scraper.py:294-340 | the records' URLs are distinct and are exactly the links' URLs that were not already seen |
| Listings.ExtractCap | src/scrapers/magicbricks_scraper.py:283 | links after the hundredth do not affect the result |
| Listings.ExtractFresh | src/scrapers/magicbricks_scraper.py:283-298 | one page's new listings are distinct and unseen, and the seen set grows by exactly their URLs |
| CityTask.ScrapeCity | src/scrapers/magicbricks_scraper.py:458-518 | the task returns its city and the number of records saved; these are the enriched or plain listings `Saved` specifies, or none when creating the scraper failed |
| CityTask.ListPages | src/scrapers/magicbricks_scraper.py:469-482 | the page loop leaves the listings and connection state of `Paginate` from page 1 |
| CityTask.SaveEnriched | src/scrapers/magicbricks_scraper.py:488-505 | the detail loop saves exactly the records of `Enrich`, one per listing, and counts them |
| CityTask.EnrichOne | src/scrapers/magicbricks_scraper.py:490-500 | one body of the detail loop makes the listing's detail fetch and gives the merged record |
| CityTask.EnrichStep | src/scrapers/magicbricks_scraper.py:489-505 | the detail loop from listing `i` is that listing's fetch and merge, followed by the loop from `i + 1` |
| CityTask.SaveListings | src/scrapers/magicbricks_scraper.py:506-511 | with details off, every listing is saved as found, and counted |
| CityTask.PaginateVisits | src/scrapers/magicbricks_scraper.py:469-482 | pages are requested consecutively from `page` and never beyond `max_pages`; every page but the last succeeded with new listings, and a last page before `max_pages` failed or gave none |
| CityTask.ListedVisits | src/scrapers/magicbricks_scraper.py:469-482 | phase 1 requests pages 1, 2, ... with at least page 1 when `max_pages >= 1`, and stops at the first failed fetch or empty page |
| CityTask.NoRepeatsStep | src/scrapers/magicbricks_scraper.py:294-298 | a page's new listings keep all the city's URLs distinct, and keep the seen set equal to them |
| CityTask.PageStepNoRepeats | src/scrapers/magicbricks_scraper.py:470-478 | one pass of the page loop keeps the listings' URLs distinct and equal to the seen set |
| CityTask.PaginateNoRepeats | src/scrapers/magicbricks_scraper.py:469-482 | the whole page loop keeps that property |
| CityTask.ListedNoRepeats | src/scrapers/magicbricks_scraper.py:463-482 | a city's listings never repeat a URL across its pages, and the scraper has seen exactly their URLs |
| CityTask.MergeSpec | src/scrapers/magicbricks_scraper.py:492-500 | a successful detail fetch adds the detail's fields and overrides on a clash; the listing's other fields stay; a failed fetch leaves the listing unchanged |
| CityTask.EnrichShape | src/scrapers/magicbricks_scraper.py:488-505 | the i-th saved record is the i-th listing merged with its own detail fetch, and a listing without a URL gets no fetch |
| CityTask.SavedAll | src/scrapers/magicbricks_scraper.py:487-514 | the task saves one record per listing: the listings themselves with details off, and supersets of their fields with details on |
| CityTask.FoldResults | src/scrapers/magicbricks_scraper.py:550-573 | the fold gives one result per completion, in completion order, where a raising task counts 0, and a total equal to the sum |
| CityTask.TotalRemove | src/scrapers/magicbricks_scraper.py:563-573 | taking one completion out of the run takes exactly its total out of the sum |
| CityTask.TotalOrderless | src/scrapers/magicbricks_scraper.py:553-573 | the grand total does not depend on the order in which the tasks complete |
| Serving.Transform | src/railway/main.py:335-345 | the encoder raises exactly for a label it does not know; otherwise it gives that label's position |
| Serving.EncodeSpec | src/railway/main.py:335-345 | a known label is kept, an unknown one is replaced by its stand-in, and the lookup fails only when both are unknown; the code is the chosen label's |
| Serving.EstimateSucceeds | src/railway/main.py:324-345 | the model gives a price exactly when a model is loaded, BHK is 1-5, the area is 300-10000, and each label or its stand-in is known; the source can still fail after these checks, in the average-price lookup (see the `Serving.EstimatePrice` line under Left out) |
| Serving.EstimateEchoes | src/railway/main.py:356-362 | an estimate echoes BHK and area, reports "Other" or "Apartment" for an unknown label, and uses the codes of the labels it reports |
| Serving.EstimateValidates | src/railway/main.py:324-332 | no model gives 503 first, then a bad BHK or area gives 400 with its own message, whatever the labels |
| Serving.MarketStatusRanges | src/railway/main.py:398-403 | HOT is more than 100 properties, WARM 51-100, COOL at most 50 |
| Serving.MarketStatusMonotone | src/railway/main.py:398-403 | more properties never make a market cooler, and the three labels differ |
| Serving.GroupWithAt | src/railway/main.py:104-108 | each location is kept when it occurs at least 20 times in the data, and replaced by "Other" otherwise |
| Serving.GroupedSpec | src/railway/main.py:104-108 | the grouped column has the same length; an entry stays exactly when it is major or already "Other", and otherwise becomes "Other" |
| Serving.GroupKeepsMajor | src/railway/main.py:104-108 | every occurrence of a major location survives grouping |
| Serving.GroupedStable | src/railway/main.py:104-108 | every grouped entry is "Other" or occurs at least 20 times in the grouped column |
| Serving.GroupedIdempotent | src/railway/main.py:104-108 | grouping the grouped column again changes nothing |
| Serving.AdminKey | src/railway/main.py:53 | the admin key is the configured one, or "change-me-in-production" when none is set |
| Serving.AdminGate | src/railway/main.py:514-589 | both admin endpoints do their work exactly when the header equals the admin key, and otherwise answer 403 "Invalid or missing API key"; after the work they answer 200 exactly when `succeeded` (the scrape did not raise; retraining returned True) |
| Serving.DefaultKeyOpens | src/railway/main.py:514-521 | with no key configured, the published default opens the endpoints, and a missing header never does |
| Serving.HealthCheck | src/railway/main.py:281-289 | the status is "OK" exactly when a model is loaded, else "LOADING"; data_points is the number of market rows, or 0 without data |

## Left out

- Network, clock and randomness: every GET's reply and every `random.choice` draw come from the `Env` parameter. A GET beyond the listed replies meets an unclassified exception, and one beyond the listed draws uses the first element of each pool.
- Fetch.RequestHeaders: a draw picks the pool element at its value modulo the pool size; the uniform distribution of `random.choice` is not modelled.
- Sleeps, delays and backoff durations (`time.sleep`, `random.uniform`) never affect a result, so they are not modelled. Logging is not modelled.
- The history of the `requests` library: its adapter-level retries on 5xx statuses and its redirects. A `Reply` is what `session.get` finally returned or raised.
- Fetch.WarmUp: the homepage reply is not inspected; any reply or exception only sets the flag, as in the source.
- Scraping.Scraper.BuildUrl: the city is inserted as given, without URL encoding, as in the source.
- HTML parsing (BeautifulSoup, the link regex) and the slug regexes: a page is given as its `Link`s with their captures; `parse` and `parseDetail` are parameters of `CityTask.ScrapeCity`; `extract_property_detail` is not modelled beyond its result being merged.
- CityTask.ScrapeCity: every record is stamped with the one `now` given to the task, not a fresh `datetime.now()` per record. Exceptions other than a failed directory creation (`setupOk`) and a listing without a URL are not modelled.
- File output, JSON and CSV writers, the file lock, and clearing the output files: the saved records are returned in the order they are written instead.
- Concurrency: the thread pool is represented by the sequence of completions in the order `as_completed` yields them.
- `scrape_infinite` (the sequential mode) and the statistics read back from the JSONL file after the fold.
- `app.py`, the notebook, `load_models`, training and `run_model_retraining`.
- Serving.EstimatePrice: FastAPI's parsing of the query parameters into integers, the prediction itself, the per-location average price and every floating-point field of the reply are left out. An encoder is represented by its list of classes. A failure of the stand-in lookup is the 400 `Unseen` reply, without the library's message text. The per-location average filters the market data with `str.contains`, which reads the location label as a regular expression (src/railway/main.py:348). A known label that is not a valid pattern, such as `C++`, makes that filter raise. The source then answers 400 "Estimation failed: ..." (src/railway/main.py:378-380), where the model gives an estimate. A label that is a valid pattern may also match other locations' rows, which changes only the average and so only the modelled-away price.
- Serving.Admin: for the scraper trigger, `succeeded` means only that `scrape_infinite_parallel` did not raise. `load_models` reports a failed reload by returning False (src/railway/main.py:258-263), and `trigger_scraper_manual` ignores that value (src/railway/main.py:543). So a failed reload still answers 200 "Scraper completed and models reloaded", as the model does. The 500 detail of a failed scrape is the message prefix "Scraper failed", without the exception text.
- Serving.Admin: for retraining, `succeeded` is the value `run_model_retraining` returned. False gives 500 "Model retraining failed - check logs". That function catches every `Exception` and returns False (src/railway/main.py:185-187). The "Retraining failed: <e>" reply (src/railway/main.py:588-589), for an exception escaping it, is not modelled.
- Serving.EstimatePrice: the load state is all or nothing. `models` is either None, giving the 503, or holds both encoders. The source can be half-loaded: `load_models` sets `model_rf` first (src/railway/main.py:229), so a later failure at the encoders or the market data passes the 503 test. `estimate_price` then fails inside its `try` and answers 400 "Estimation failed: ..." (src/railway/main.py:378-380). That state is not modelled; the model would return an estimate or `Unseen` using the encoders it holds.
- Default arguments are not modelled: `estimate_price`'s `location="Mumbai"` and `property_type="Apartment"` (src/railway/main.py:316-317), and `build_url`'s and `fetch_page`'s `page=1`. Every model function takes these values explicitly.
- Headers.BuildHeaders: a header map is a Dafny `map`. It does not keep the insertion order of the source's dict, and that order is the order in which `requests` sends the headers (src/scrapers/magicbricks_scraper.py:71-107). "Common part, then family part, then sec-ch-ua" in the model is the order of overlays, not the wire order.
- The market heat map beyond the tier: sorting the locations and their price aggregates (floating point).
- `api_status` and the other read-only endpoints, which only format loaded data.
