/**
 * URL construction for listing pages: the scraper's filter dictionary (`set_city`) and
 * `build_url`, which joins the filters as `key=value` pairs in insertion order and appends
 * the page number.
 */
module Urls {
  import opened Text
  import opened Wrappers

  /** The site root; relative listing links are resolved against it. */
  const SiteRoot: string := "https://www.magicbricks.com"
  const ListingPath: string := ListingPath1 + ListingPath2
  const ListingPath1: string := "/property-for-sale"
  const ListingPath2: string := "/residential-real-estate"
  /** `BASE_URL`. */
  const BaseUrl: string := SiteRoot + ListingPath

  /** The `proptype` filter, written in pieces short enough to reason about character by character. */
  const PropertyTypes: string := PropertyTypes1 + PropertyTypes2 + PropertyTypes3 + PropertyTypes4
  const PropertyTypes1: string := "Multistorey-Apartment,"
  const PropertyTypes2: string := "Builder-Floor-Apartment,"
  const PropertyTypes3: string := "Penthouse,Studio-Apartment,"
  const PropertyTypes4: string := "Residential-House,Villa"

  /** A Python dict from strings to strings, in insertion order. */
  type Params = seq<(string, string)>

  /** `BASE_FILTERS`. */
  const BaseFilters: Params := [("bedroom", "2,3"), ("proptype", PropertyTypes)]

  /** `d.get(k)`: the value of the first entry with key `k`. */
  function Lookup(p: Params, k: string): Option<string>
    decreases |p|
  {
    if |p| == 0 then None
    else if p[0].0 == k then Some(p[0].1)
    else Lookup(p[1..], k)
  }

  /** `d[k] = v`: an existing key keeps its place and takes the new value, a new key goes last. */
  function Put(p: Params, k: string, v: string): (r: Params)
    ensures Lookup(r, k) == Some(v)
    ensures forall k' :: k' != k ==> Lookup(r, k') == Lookup(p, k')
    ensures Lookup(p, k).None? ==> r == p + [(k, v)]
    ensures Lookup(p, k).Some? ==> |r| == |p|
    ensures forall i :: 0 <= i < |p| ==> r[i].0 == p[i].0
    decreases |p|
  {
    if |p| == 0 then [(k, v)]
    else if p[0].0 == k then [(k, v)] + p[1..]
    else [p[0]] + Put(p[1..], k, v)
  }

  /** `{**BASE_FILTERS, "cityName": city}`, the filters `set_city` installs. */
  function CityFilters(city: string): Params {
    Put(BaseFilters, "cityName", city)
  }

  /** The `f"{k}={v}"` strings of the entries, in order. */
  function Pairs(p: Params): (r: seq<string>)
    ensures |r| == |p|
  {
    seq(|p|, i requires 0 <= i < |p| => p[i].0 + "=" + p[i].1)
  }

  /** `"&".join(f"{k}={v}" for k, v in filters.items())`. */
  function Query(p: Params): string {
    Join(Pairs(p), "&")
  }

  /** `build_url(page)`: `f"{BASE_URL}?{params}&page={page}"`. */
  function PageUrl(filters: Params, page: int): string {
    BaseUrl + "?" + Query(filters) + "&page=" + IntToString(page)
  }

  // ----- Reading a URL back -----

  /** One `key=value` item, split at its first '='. */
  function ParsePair(s: string): (string, string) {
    if '=' in s then var i := IndexOf(s, '='); (s[..i], s[i + 1..]) else (s, "")
  }

  /** A query string read back as its `key=value` items, in order. */
  function ParseQuery(q: string): (r: Params)
    ensures |r| == |Split(q, '&')|
  {
    var items := Split(q, '&');
    seq(|items|, i requires 0 <= i < |items| => ParsePair(items[i]))
  }

  /** The part of a URL after its first '?'. */
  function QueryPart(url: string): string {
    if '?' in url then url[IndexOf(url, '?') + 1..] else ""
  }

  /** A dictionary whose entries print and read back unambiguously. */
  predicate PrintableParams(p: Params) {
    forall i :: 0 <= i < |p| ==> '&' !in p[i].0 && '=' !in p[i].0 && '&' !in p[i].1
  }

  // ----- Properties -----

  /** `set_city(city)` keeps the two base filters in place and adds `cityName` last. */
  lemma CityFiltersShape(city: string)
    ensures CityFilters(city) == [("bedroom", "2,3"), ("proptype", PropertyTypes), ("cityName", city)]
    ensures Lookup(CityFilters(city), "cityName") == Some(city)
  {
    assert Lookup(BaseFilters, "cityName") == None by {
      assert "bedroom"[0] != "cityName"[0];
      assert "proptype"[0] != "cityName"[0];
      assert BaseFilters[1..] == [("proptype", PropertyTypes)];
      assert Lookup(BaseFilters[1..][1..], "cityName") == None;
      assert Lookup(BaseFilters[1..], "cityName") == None;
    }
  }

  /** The query string of a three-entry dictionary. */
  lemma Query3(a: (string, string), b: (string, string), c: (string, string))
    ensures Query([a, b, c]) == a.0 + "=" + a.1 + "&" + (b.0 + "=" + b.1 + "&" + (c.0 + "=" + c.1))
  {
    var ps := Pairs([a, b, c]);
    assert ps[1..][1..] == [c.0 + "=" + c.1];
    assert Join(ps[1..], "&") == b.0 + "=" + b.1 + "&" + (c.0 + "=" + c.1);
  }

  /** `build_url(page)` after `set_city(city)`: the filters in insertion order, then the page. */
  lemma CityPageUrl(city: string, page: int)
    ensures PageUrl(CityFilters(city), page) ==
      BaseUrl + "?" + "bedroom=2,3" + "&" + "proptype=" + PropertyTypes + "&" + "cityName=" + city + "&page=" + IntToString(page)
  {
    CityFiltersShape(city);
    Query3(("bedroom", "2,3"), ("proptype", PropertyTypes), ("cityName", city));
    FilterItems();
    var c := "cityName=" + city;
    var b := "proptype=" + PropertyTypes;
    var h := BaseUrl + "?" + "bedroom=2,3" + "&";
    assert Query(CityFilters(city)) == "bedroom=2,3" + "&" + (b + "&" + c);
    Assoc(BaseUrl + "?", "bedroom=2,3" + "&", b + "&" + c);
    Assoc(BaseUrl + "?", "bedroom=2,3", "&");
    Assoc(h, b + "&", c);
    Assoc(h, "proptype=", PropertyTypes);
  }

  lemma Assoc(a: string, b: string, c: string)
    ensures a + (b + c) == a + b + c
  {
  }

  lemma FilterItems()
    ensures "bedroom" + "=" + "2,3" == "bedroom=2,3"
    ensures "proptype" + "=" == "proptype=" && "cityName" + "=" == "cityName="
  {
  }

  /** Appending one part to a non-empty join adds one separator and the part. */
  lemma {:induction false} JoinSnoc(parts: seq<string>, x: string, sep: string)
    requires |parts| > 0
    ensures Join(parts + [x], sep) == Join(parts, sep) + sep + x
    decreases |parts|
  {
    if |parts| > 1 {
      assert (parts + [x])[1..] == parts[1..] + [x];
      JoinSnoc(parts[1..], x, sep);
    } else {
      assert (parts + [x])[1..] == [x];
    }
  }

  /** An item `k=v` with no '=' in `k` reads back as `(k, v)`. */
  lemma ParsePrinted(k: string, v: string)
    requires '=' !in k
    ensures ParsePair(k + "=" + v) == (k, v)
  {
    IndexAfter(k, v, '=');
    var s := k + "=" + v;
    assert s == k + ['='] + v;
    assert s[..|k|] == k;
    assert s[|k| + 1..] == v;
  }

  /** Reading a query string back undoes `Query` on printable filters. */
  lemma QueryRoundTrip(p: Params)
    requires |p| > 0 && PrintableParams(p)
    ensures ParseQuery(Query(p)) == p
  {
    var ps := Pairs(p);
    forall k | 0 <= k < |ps|
      ensures '&' !in ps[k]
    {
      assert ps[k] == p[k].0 + "=" + p[k].1;
    }
    SplitJoin(ps, '&');
    assert "&" == ['&'];
    var r := ParseQuery(Query(p));
    forall i | 0 <= i < |p|
      ensures r[i] == p[i]
    {
      ParsePrinted(p[i].0, p[i].1);
    }
  }

  /**
   * The query part of `build_url(page)` reads back as the filters followed by
   * `("page", str(page))`: the page parameter always comes last.
   */
  lemma PageUrlRoundTrip(filters: Params, page: int)
    requires |filters| > 0 && PrintableParams(filters)
    ensures ParseQuery(QueryPart(PageUrl(filters, page))) == filters + [("page", IntToString(page))]
  {
    var ext := filters + [("page", IntToString(page))];
    QuerySnoc(filters, "page", IntToString(page));
    var q := Query(ext);
    BaseUrlNoQuery();
    IndexAfter(BaseUrl, q, '?');
    var url := BaseUrl + ['?'] + q;
    PageItem(Query(filters), IntToString(page));
    assert PageUrl(filters, page) == url;
    assert url[|BaseUrl| + 1..] == q;
    QueryRoundTrip(ext);
  }

  /** Adding one printable entry at the end adds one `&key=value` item to the query. */
  lemma QuerySnoc(p: Params, k: string, v: string)
    requires |p| > 0 && PrintableParams(p) && '&' !in k && '=' !in k && '&' !in v
    ensures PrintableParams(p + [(k, v)])
    ensures Query(p + [(k, v)]) == Query(p) + "&" + (k + "=" + v)
  {
    var ext := p + [(k, v)];
    forall i | 0 <= i < |ext|
      ensures '&' !in ext[i].0 && '=' !in ext[i].0 && '&' !in ext[i].1
    {
      if i < |p| { assert ext[i] == p[i]; }
    }
    assert Pairs(ext) == Pairs(p) + [k + "=" + v] by {
      forall i | 0 <= i < |ext|
        ensures Pairs(ext)[i] == (Pairs(p) + [k + "=" + v])[i]
      {
        if i < |p| { assert ext[i] == p[i]; }
      }
    }
    JoinSnoc(Pairs(p), k + "=" + v, "&");
  }

  lemma PageItem(q: string, n: string)
    ensures q + "&" + ("page" + "=" + n) == q + "&page=" + n
  {
  }

  lemma BaseUrlNoQuery()
    ensures '?' !in BaseUrl
  {
    assert '?' !in SiteRoot;
    assert '?' !in ListingPath1;
    assert '?' !in ListingPath2;
  }

  lemma PropertyTypes1Printable() ensures '&' !in PropertyTypes1 {}
  lemma PropertyTypes2Printable() ensures '&' !in PropertyTypes2 {}
  lemma PropertyTypes3Printable() ensures '&' !in PropertyTypes3 {}
  lemma PropertyTypes4Printable() ensures '&' !in PropertyTypes4 {}

  lemma PropertyTypesPrintable()
    ensures '&' !in PropertyTypes
  {
    PropertyTypes1Printable();
    PropertyTypes2Printable();
    PropertyTypes3Printable();
    PropertyTypes4Printable();
  }

  /** After `set_city(city)`, the page URL carries the city back, provided it has no '&'. */
  lemma CityPageUrlRoundTrip(city: string, page: int)
    requires '&' !in city
    ensures var q := ParseQuery(QueryPart(PageUrl(CityFilters(city), page)));
      Lookup(q, "cityName") == Some(city) && q[|q| - 1] == ("page", IntToString(page))
  {
    CityFiltersShape(city);
    var f := CityFilters(city);
    CityFiltersPrintable(city);
    PageUrlRoundTrip(f, page);
    LookupAppend(f, [("page", IntToString(page))], "cityName");
  }

  /** The filters of a city without '&' print unambiguously. */
  lemma CityFiltersPrintable(city: string)
    requires '&' !in city
    ensures PrintableParams(CityFilters(city))
  {
    CityFiltersShape(city);
    PropertyTypesPrintable();
    var f := CityFilters(city);
    assert f[0] == ("bedroom", "2,3") && f[1] == ("proptype", PropertyTypes) && f[2] == ("cityName", city);
  }

  /** Entries appended after a key's first occurrence do not change its value. */
  lemma {:induction false} LookupAppend(p: Params, e: Params, k: string)
    requires Lookup(p, k).Some?
    ensures Lookup(p + e, k) == Lookup(p, k)
    decreases |p|
  {
    if p[0].0 != k {
      assert (p + e)[1..] == p[1..] + e;
      LookupAppend(p[1..], e, k);
    }
  }
}
