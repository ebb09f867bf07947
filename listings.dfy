/**
 * The per-link loop of `extract_property_listings`: the first 100 property links of a page
 * are normalised to absolute URLs, links already seen are skipped (within the page too),
 * and a record is built for each new URL from the captures of the slug regexes.
 *
 * Finding the links in the HTML and running the slug regexes are not modelled: a page is
 * given as its list of `Link`s, each carrying its raw href and what the regexes captured.
 */
module Listings {
  import opened Wrappers
  import opened Text
  import Urls

  /** `all_links[:100]`: only the first hundred links of a page are looked at. */
  const MaxLinks: nat := 100

  /**
   * One property link: its `href` attribute, and what the `(\d+)-BHK`, `(\d+)-Sq-(?:ft|yrd)`
   * and `in-([A-Za-z-]+)&id` regexes captured in its URL slug.
   */
  datatype Link = Link(href: string, bhk: Option<string>, area: Option<string>, location: Option<string>)

  /** The fields a property record can carry; `FieldName` gives the dict key the source uses. */
  datatype Field = Url | Bhk | AreaSqft | PropertyType | Location | Title | ScrapedAt | Price | PriceUnit

  function FieldName(f: Field): string {
    match f
    case Url => "url"
    case Bhk => "bhk"
    case AreaSqft => "area_sqft"
    case PropertyType => "property_type"
    case Location => "location"
    case Title => "title"
    case ScrapedAt => "scraped_at"
    case Price => "price"
    case PriceUnit => "price_unit"
  }

  /** A property record: a Python dict from field to value. */
  type Record = map<Field, string>

  /** `prop_types`, in the order the slug is tested against them. */
  const PropertyTypes: seq<string> :=
    ["Multistorey-Apartment", "Builder-Floor-Apartment", "Residential-House", "Villa", "Penthouse", "Studio-Apartment"]

  /**
   * `href.strip()`, then nothing for an empty result, else the URL, with the site root put
   * in front when it does not start with "http".
   */
  function Normalize(href: string): Option<string> {
    var u := Strip(href);
    if u == "" then None
    else if IsPrefix("http", u) then Some(u)
    else Some(Urls.SiteRoot + u)
  }

  /** The first of `types` the slug contains, with its dashes turned into spaces. */
  function PropertyTypeOf(slug: string, types: seq<string>): Option<string>
    decreases |types|
  {
    if |types| == 0 then None
    else if Contains(slug, types[0]) then Some(ReplaceChar(types[0], '-', ' '))
    else PropertyTypeOf(slug, types[1..])
  }

  /** The `parts` the title is made of: "<bhk> BHK", the property type, "in <location>", each when known. */
  function TitleParts(bhk: Option<string>, ptype: Option<string>, location: Option<string>): seq<string> {
    (if bhk.Some? then [bhk.value + " BHK"] else [])
    + (if ptype.Some? then [ptype.value] else [])
    + (if location.Some? then ["in " + location.value] else [])
  }

  const DefaultTitle: string := "Property Listing"

  /** `' '.join(parts) if parts else 'Property Listing'`. */
  function TitleOf(bhk: Option<string>, ptype: Option<string>, location: Option<string>): string {
    var parts := TitleParts(bhk, ptype, location);
    if |parts| == 0 then DefaultTitle else Join(parts, " ")
  }

  /** Adds `key: value` to a record when the value is known. */
  function PutIf(r: Record, key: Field, v: Option<string>): Record {
    if v.Some? then r[key := v.value] else r
  }

  /** The record for `url` once its property type has been found. */
  function RecordOf(url: string, link: Link, ptype: Option<string>, now: string): Record {
    var location := if link.location.Some? then Some(ReplaceChar(link.location.value, '-', ' ')) else None;
    var r := PutIf(PutIf(PutIf(PutIf(map[Url := url], Bhk, link.bhk), AreaSqft, link.area),
                         PropertyType, ptype), Location, location);
    r[Title := TitleOf(link.bhk, ptype, location)][ScrapedAt := now]
  }

  /** The record built for a new URL, stamped with the time `now`; the type comes from the URL's last segment. */
  function ListingRecord(url: string, link: Link, now: string): Record {
    RecordOf(url, link, PropertyTypeOf(LastSegment(url), PropertyTypes), now)
  }

  /** What the loop has produced after a run of links: the records, and the seen set. */
  datatype Collected = Collected(records: seq<Record>, seen: set<string>)

  /** The loop over `links` starting from the seen set `seen`, one link at a time from the front. */
  function Collect(links: seq<Link>, seen: set<string>, now: string): Collected
    decreases |links|
  {
    if |links| == 0 then Collected([], seen)
    else
      var before := Collect(links[..|links| - 1], seen, now);
      var link := links[|links| - 1];
      var nu := Normalize(link.href);
      if nu.None? || nu.value in before.seen then before
      else Collected(before.records + [ListingRecord(nu.value, link, now)], before.seen + {nu.value})
  }

  /** The loop of `extract_property_listings` on a page's links. */
  function Extract(links: seq<Link>, seen: set<string>, now: string): Collected {
    Collect(if |links| <= MaxLinks then links else links[..MaxLinks], seen, now)
  }

  // ----- Properties -----

  /** The URL of a record ("" for a record without one). */
  function UrlOf(r: Record): string {
    if Url in r then r[Url] else ""
  }

  /** The URLs of a run of records. */
  function RecordUrls(records: seq<Record>): (us: seq<string>)
    ensures |us| == |records|
  {
    if |records| == 0 then [] else RecordUrls(records[..|records| - 1]) + [UrlOf(records[|records| - 1])]
  }

  lemma RecordUrlsSnoc(records: seq<Record>, r: Record)
    ensures RecordUrls(records + [r]) == RecordUrls(records) + [UrlOf(r)]
  {
    assert (records + [r])[..|records|] == records;
  }

  /** Pairwise distinct. */
  predicate Distinct(s: seq<string>) {
    forall i, j :: 0 <= i < j < |s| ==> s[i] != s[j]
  }

  /** The href normalisation: empty after stripping means skipped; a relative URL gets the site root. */
  lemma NormalizeSpec(href: string)
    ensures Normalize(href).None? <==> forall k :: 0 <= k < |href| ==> IsSpace(href[k])
    ensures Normalize(href).Some? && IsPrefix("http", Strip(href)) ==> Normalize(href).value == Strip(href)
    ensures Normalize(href).Some? && !IsPrefix("http", Strip(href)) ==>
      Normalize(href).value == Urls.SiteRoot + Strip(href)
  {
    StripSpec(href);
  }

  /** A record's URL, title and time stamp are always there, and it has no price yet. */
  lemma RecordFixedFields(url: string, link: Link, ptype: Option<string>, now: string)
    ensures var r := RecordOf(url, link, ptype, now);
      Url in r && r[Url] == url && Title in r && ScrapedAt in r && r[ScrapedAt] == now
      && Price !in r && PriceUnit !in r
  {
  }

  /** The optional fields are there exactly when they were captured, with the captured value. */
  lemma RecordOptionalFields(url: string, link: Link, ptype: Option<string>, now: string)
    ensures var r := RecordOf(url, link, ptype, now);
      (Bhk in r <==> link.bhk.Some?) && (link.bhk.Some? ==> r[Bhk] == link.bhk.value)
      && (AreaSqft in r <==> link.area.Some?) && (link.area.Some? ==> r[AreaSqft] == link.area.value)
  {
  }

  /** The type is there exactly when one was found; the location exactly when captured, dashes as spaces. */
  lemma RecordTypeAndLocation(url: string, link: Link, ptype: Option<string>, now: string)
    ensures var r := RecordOf(url, link, ptype, now);
      (PropertyType in r <==> ptype.Some?) && (ptype.Some? ==> r[PropertyType] == ptype.value)
      && (Location in r <==> link.location.Some?)
      && (link.location.Some? ==> r[Location] == ReplaceChar(link.location.value, '-', ' '))
  {
  }

  /** The same for the record the loop builds, whose type is the first candidate the slug contains. */
  lemma ListingRecordFields(url: string, link: Link, now: string)
    ensures var r := ListingRecord(url, link, now);
      Url in r && r[Url] == url && ScrapedAt in r && r[ScrapedAt] == now
      && (PropertyType in r <==> PropertyTypeOf(LastSegment(url), PropertyTypes).Some?)
  {
    RecordFixedFields(url, link, PropertyTypeOf(LastSegment(url), PropertyTypes), now);
    RecordTypeAndLocation(url, link, PropertyTypeOf(LastSegment(url), PropertyTypes), now);
  }

  /**
   * The title: "Property Listing" when nothing is known, else the known parts joined by
   * spaces, in the order bhk, type, location.
   */
  lemma TitleSpec(bhk: Option<string>, ptype: Option<string>, location: Option<string>)
    ensures bhk.None? && ptype.None? && location.None? ==> TitleOf(bhk, ptype, location) == DefaultTitle
    ensures bhk.Some? && ptype.Some? && location.Some? ==>
      TitleOf(bhk, ptype, location) == bhk.value + " BHK" + " " + (ptype.value + " " + ("in " + location.value))
    ensures bhk.Some? && ptype.None? && location.None? ==> TitleOf(bhk, ptype, location) == bhk.value + " BHK"
    ensures bhk.None? && ptype.None? && location.Some? ==> TitleOf(bhk, ptype, location) == "in " + location.value
    ensures bhk.None? && ptype.Some? && location.None? ==> TitleOf(bhk, ptype, location) == ptype.value
    ensures bhk.Some? && ptype.Some? && location.None? ==>
      TitleOf(bhk, ptype, location) == bhk.value + " BHK" + " " + ptype.value
    ensures bhk.Some? && ptype.None? && location.Some? ==>
      TitleOf(bhk, ptype, location) == bhk.value + " BHK" + " " + ("in " + location.value)
    ensures bhk.None? && ptype.Some? && location.Some? ==>
      TitleOf(bhk, ptype, location) == ptype.value + " " + ("in " + location.value)
  {
    var parts := TitleParts(bhk, ptype, location);
    if bhk.Some? && ptype.Some? && location.Some? {
      assert parts == [bhk.value + " BHK", ptype.value, "in " + location.value];
      assert parts[1..][1..] == ["in " + location.value];
      assert Join(parts[1..], " ") == ptype.value + " " + ("in " + location.value);
    } else if bhk.Some? && ptype.Some? && location.None? {
      assert parts == [bhk.value + " BHK", ptype.value];
      assert parts[1..] == [ptype.value];
      assert Join(parts[1..], " ") == ptype.value;
    } else if bhk.Some? && ptype.None? && location.Some? {
      assert parts == [bhk.value + " BHK", "in " + location.value];
      assert parts[1..] == ["in " + location.value];
      assert Join(parts[1..], " ") == "in " + location.value;
    } else if bhk.None? && ptype.Some? && location.Some? {
      assert parts == [ptype.value, "in " + location.value];
      assert parts[1..] == ["in " + location.value];
      assert Join(parts[1..], " ") == "in " + location.value;
    }
  }

  /** The found type is one of the candidates, and None means the slug contains none of them. */
  lemma {:induction false} PropertyTypeSpec(slug: string, types: seq<string>)
    ensures PropertyTypeOf(slug, types).None? <==> forall k :: 0 <= k < |types| ==> !Contains(slug, types[k])
    ensures PropertyTypeOf(slug, types).Some? ==>
      exists k :: 0 <= k < |types| && Contains(slug, types[k])
        && PropertyTypeOf(slug, types).value == ReplaceChar(types[k], '-', ' ')
        && forall j :: 0 <= j < k ==> !Contains(slug, types[j])
    decreases |types|
  {
    if |types| > 0 && !Contains(slug, types[0]) {
      PropertyTypeSpec(slug, types[1..]);
      var r := PropertyTypeOf(slug, types);
      if r.Some? {
        var k :| 0 <= k < |types[1..]| && Contains(slug, types[1..][k])
          && r.value == ReplaceChar(types[1..][k], '-', ' ')
          && forall j :: 0 <= j < k ==> !Contains(slug, types[1..][j]);
        assert types[k + 1] == types[1..][k];
        assert forall j :: 0 <= j < k + 1 ==> !Contains(slug, types[j]) by {
          forall j | 0 <= j < k + 1 ensures !Contains(slug, types[j]) {
            if j > 0 { assert types[j] == types[1..][j - 1]; }
          }
        }
      } else {
        forall k | 0 <= k < |types| ensures !Contains(slug, types[k]) {
          if k > 0 { assert types[k] == types[1..][k - 1]; }
        }
      }
    } else if |types| > 0 {
      assert Contains(slug, types[0]);
    }
  }

  /** The loop after `i + 1` links is the loop after `i` followed by one step for link `i`. */
  lemma CollectNext(links: seq<Link>, i: nat, seen: set<string>, now: string)
    requires i < |links|
    ensures var before := Collect(links[..i], seen, now);
      var nu := Normalize(links[i].href);
      Collect(links[..i + 1], seen, now)
        == if nu.None? || nu.value in before.seen then before
           else Collected(before.records + [ListingRecord(nu.value, links[i], now)], before.seen + {nu.value})
  {
    assert links[..i + 1][..i] == links[..i];
  }

  /** The loop returns at most one record per link. */
  lemma {:induction false} CollectLength(links: seq<Link>, seen: set<string>, now: string)
    ensures |Collect(links, seen, now).records| <= |links|
    decreases |links|
  {
    if |links| > 0 {
      CollectLength(links[..|links| - 1], seen, now);
    }
  }

  /** A record the loop appends carries the URL it was built for. */
  lemma CollectStep(links: seq<Link>, seen: set<string>, now: string)
    requires |links| > 0
    ensures var before := Collect(links[..|links| - 1], seen, now);
      var out := Collect(links, seen, now);
      var nu := Normalize(links[|links| - 1].href);
      if nu.Some? && nu.value !in before.seen then
        RecordUrls(out.records) == RecordUrls(before.records) + [nu.value] && out.seen == before.seen + {nu.value}
      else out == before
  {
    var before := Collect(links[..|links| - 1], seen, now);
    var nu := Normalize(links[|links| - 1].href);
    if nu.Some? && nu.value !in before.seen {
      var r := ListingRecord(nu.value, links[|links| - 1], now);
      ListingRecordFields(nu.value, links[|links| - 1], now);
      assert Collect(links, seen, now).records == before.records + [r];
      RecordUrlsSnoc(before.records, r);
    }
  }

  /**
   * The heart of the loop: the returned URLs are pairwise distinct, none was seen before,
   * and the seen set grows by exactly them.
   */
  lemma {:induction false} CollectFresh(links: seq<Link>, seen: set<string>, now: string)
    ensures var out := Collect(links, seen, now); var us := RecordUrls(out.records);
      Distinct(us)
      && (forall k :: 0 <= k < |us| ==> us[k] !in seen)
      && out.seen == seen + (set u | u in us)
    decreases |links|
  {
    if |links| > 0 {
      var init := links[..|links| - 1];
      CollectFresh(init, seen, now);
      CollectStep(links, seen, now);
      var before := Collect(init, seen, now);
      var out := Collect(links, seen, now);
      var ub := RecordUrls(before.records);
      var us := RecordUrls(out.records);
      var nu := Normalize(links[|links| - 1].href);
      if nu.Some? && nu.value !in before.seen {
        assert us == ub + [nu.value];
        assert out.seen == before.seen + {nu.value};
        assert (set u | u in us) == (set u | u in ub) + {nu.value};
        assert nu.value !in seen && nu.value !in ub;
        assert Distinct(us) by {
          forall i, j | 0 <= i < j < |us| ensures us[i] != us[j] {
            if j == |ub| { assert us[i] == ub[i]; } else { assert us[i] == ub[i] && us[j] == ub[j]; }
          }
        }
      } else {
        assert out == before;
      }
    }
  }

  /** The URLs the links normalise to. */
  function LinkUrls(links: seq<Link>): set<string>
    decreases |links|
  {
    if |links| == 0 then {}
    else
      var nu := Normalize(links[|links| - 1].href);
      LinkUrls(links[..|links| - 1]) + (if nu.Some? then {nu.value} else {})
  }

  /** `LinkUrls` holds exactly the normalised hrefs of the links. */
  lemma {:induction false} LinkUrlsSpec(links: seq<Link>, u: string)
    ensures u in LinkUrls(links) <==> exists i :: 0 <= i < |links| && Normalize(links[i].href) == Some(u)
    decreases |links|
  {
    if |links| > 0 {
      var init := links[..|links| - 1];
      var last := |links| - 1;
      var nu := Normalize(links[last].href);
      LinkUrlsSpec(init, u);
      assert LinkUrls(links) == LinkUrls(init) + (if nu.Some? then {nu.value} else {});
      if u in LinkUrls(init) {
        var i :| 0 <= i < |init| && Normalize(init[i].href) == Some(u);
        assert links[i] == init[i];
      } else if nu == Some(u) {
        assert Normalize(links[last].href) == Some(u);
      } else {
        forall i | 0 <= i < |links| ensures Normalize(links[i].href) != Some(u) {
          if i < last {
            assert links[i] == init[i];
          }
        }
      }
    }
  }

  /** After the loop the seen set holds what it held before and every URL of the links. */
  lemma {:induction false} CollectSeen(links: seq<Link>, seen: set<string>, now: string)
    ensures Collect(links, seen, now).seen == seen + LinkUrls(links)
    decreases |links|
  {
    if |links| > 0 {
      CollectSeen(links[..|links| - 1], seen, now);
    }
  }

  /**
   * What the loop returns: one record for each URL of the links not seen before, none twice,
   * and each record the one built from the link the URL came from.
   */
  lemma CollectUrls(links: seq<Link>, seen: set<string>, now: string)
    ensures var us := RecordUrls(Collect(links, seen, now).records);
      Distinct(us) && (set u | u in us) == LinkUrls(links) - seen
  {
    CollectFresh(links, seen, now);
    CollectSeen(links, seen, now);
  }

  /** Links after the hundredth never make it into the result. */
  lemma ExtractCap(links: seq<Link>, seen: set<string>, now: string)
    requires |links| > MaxLinks
    ensures Extract(links, seen, now) == Extract(links[..MaxLinks], seen, now)
  {
    assert links[..MaxLinks][..MaxLinks] == links[..MaxLinks];
  }

  /** The URLs of two runs of records, one after the other. */
  lemma {:induction false} RecordUrlsAppend(a: seq<Record>, b: seq<Record>)
    ensures RecordUrls(a + b) == RecordUrls(a) + RecordUrls(b)
    decreases |b|
  {
    if |b| > 0 {
      var init := b[..|b| - 1];
      RecordUrlsAppend(a, init);
      assert a + b == (a + init) + [b[|b| - 1]];
      assert b == init + [b[|b| - 1]];
      RecordUrlsSnoc(a + init, b[|b| - 1]);
      RecordUrlsSnoc(init, b[|b| - 1]);
    } else {
      assert a + b == a;
    }
  }

  /** `CollectFresh` for one page: what `extract_property_listings` returns is new and duplicate-free. */
  lemma ExtractFresh(links: seq<Link>, seen: set<string>, now: string)
    ensures var out := Extract(links, seen, now); var us := RecordUrls(out.records);
      Distinct(us)
      && (forall k :: 0 <= k < |us| ==> us[k] !in seen)
      && out.seen == seen + (set u | u in us)
  {
    CollectFresh(if |links| <= MaxLinks then links else links[..MaxLinks], seen, now);
  }
}
