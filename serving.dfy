/**
 * The integer and label rules of the price-intelligence API: the guards of
 * `estimate_price` and its fallback for labels the encoders do not know, the
 * HOT/WARM/COOL market tier, the grouping of rare locations into "Other", the admin key
 * check, and the health status. The trained models are represented by the label sets of
 * their two encoders; predictions (floating point) are not modelled.
 */
module Serving {
  import opened Wrappers

  // ----- Label encoders -----

  /** The position of `name` among an encoder's classes: `transform([name])[0]`, or None where it raises. */
  function Transform(classes: seq<string>, name: string): (code: Option<nat>)
    ensures code.None? <==> name !in classes
    ensures code.Some? ==> code.value < |classes| && classes[code.value] == name
    decreases |classes|
  {
    if |classes| == 0 then None
    else if classes[0] == name then Some(0)
    else
      var rest := Transform(classes[1..], name);
      if rest.Some? then Some(rest.value + 1) else None
  }

  /** What `load_models` leaves behind: the two encoders' classes. */
  datatype Models = Models(locations: seq<string>, propertyTypes: seq<string>)

  /** The stand-in for an unknown location, and the one for an unknown property type. */
  const OtherLocation: string := "Other"
  const DefaultPropertyType: string := "Apartment"

  // ----- estimate_price -----

  /**
   * The reply of `estimate_price`: an HTTP error with its detail, the 400 "Estimation
   * failed" error raised when even the stand-in `name` is unknown to its encoder, or the
   * echoed request with the labels and codes the prediction was made from.
   */
  datatype PriceReply =
    | Refused(status: int, detail: string)
    | Unseen(name: string)
    | Estimate(bhk: int, areaSqft: int, location: string, propertyType: string, locationCode: nat, typeCode: nat)

  /** The HTTP status of a reply. */
  function StatusOf(r: PriceReply): int {
    match r
    case Refused(status, _) => status
    case Unseen(_) => 400
    case Estimate(_, _, _, _, _, _) => 200
  }

  /** An encoder lookup with a stand-in: the label used and its code, or the stand-in that is unknown too. */
  function Encode(classes: seq<string>, name: string, fallback: string): Result
  {
    var code := Transform(classes, name);
    if code.Some? then Encoded(name, code.value)
    else
      var other := Transform(classes, fallback);
      if other.Some? then Encoded(fallback, other.value) else Failed(fallback)
  }

  /** The outcome of one encoder lookup. */
  datatype Result = Encoded(name: string, code: nat) | Failed(missing: string)

  /**
   * `estimate_price(bhk, area_sqft, location, property_type)`, with `models` None while no
   * model is loaded: the 503 comes first, then the BHK and area checks, then the two lookups.
   */
  function EstimatePrice(models: Option<Models>, bhk: int, areaSqft: int, location: string, propertyType: string)
    : PriceReply
  {
    if models.None? then Refused(503, "Models loading, try again in 10 seconds")
    else if !(1 <= bhk <= 5) then Refused(400, "BHK must be 1-5")
    else if !(300 <= areaSqft <= 10000) then Refused(400, "Area must be 300-10,000 sqft")
    else
      var loc := Encode(models.value.locations, location, OtherLocation);
      if loc.Failed? then Unseen(loc.missing)
      else
        var pt := Encode(models.value.propertyTypes, propertyType, DefaultPropertyType);
        if pt.Failed? then Unseen(pt.missing)
        else Estimate(bhk, areaSqft, loc.name, pt.name, loc.code, pt.code)
  }

  /** A lookup keeps a known label, falls back to the stand-in otherwise, and fails only when both are unknown. */
  lemma EncodeSpec(classes: seq<string>, name: string, fallback: string)
    ensures var e := Encode(classes, name, fallback);
      && (e.Failed? <==> name !in classes && fallback !in classes)
      && (e.Failed? ==> e.missing == fallback)
      && (e.Encoded? ==> e.name == (if name in classes then name else fallback))
      && (e.Encoded? ==> e.code < |classes| && classes[e.code] == e.name)
  {
  }

  /**
   * A price is estimated exactly when a model is loaded, BHK is in 1..5, the area is in
   * 300..10000, and each label or its stand-in is known to its encoder.
   */
  lemma EstimateSucceeds(models: Option<Models>, bhk: int, areaSqft: int, location: string, propertyType: string)
    ensures EstimatePrice(models, bhk, areaSqft, location, propertyType).Estimate? <==>
      && models.Some? && 1 <= bhk <= 5 && 300 <= areaSqft <= 10000
      && (location in models.value.locations || OtherLocation in models.value.locations)
      && (propertyType in models.value.propertyTypes || DefaultPropertyType in models.value.propertyTypes)
  {
    if models.Some? {
      EncodeSpec(models.value.locations, location, OtherLocation);
      EncodeSpec(models.value.propertyTypes, propertyType, DefaultPropertyType);
    }
  }

  /**
   * An estimate echoes BHK and area, says "Other" for an unknown location and "Apartment"
   * for an unknown property type, and uses the codes the encoders give the echoed labels.
   */
  lemma EstimateEchoes(models: Option<Models>, bhk: int, areaSqft: int, location: string, propertyType: string)
    ensures var r := EstimatePrice(models, bhk, areaSqft, location, propertyType);
      r.Estimate? ==>
        && r.bhk == bhk && r.areaSqft == areaSqft
        && r.location == (if location in models.value.locations then location else OtherLocation)
        && r.propertyType == (if propertyType in models.value.propertyTypes then propertyType else DefaultPropertyType)
        && r.locationCode < |models.value.locations| && models.value.locations[r.locationCode] == r.location
        && r.typeCode < |models.value.propertyTypes| && models.value.propertyTypes[r.typeCode] == r.propertyType
  {
    if models.Some? {
      EncodeSpec(models.value.locations, location, OtherLocation);
      EncodeSpec(models.value.propertyTypes, propertyType, DefaultPropertyType);
    }
  }

  /** Out-of-range input is refused with 400 (and an unloaded model with 503) whatever the labels. */
  lemma EstimateValidates(models: Option<Models>, bhk: int, areaSqft: int, location: string, propertyType: string)
    ensures var r := EstimatePrice(models, bhk, areaSqft, location, propertyType);
      && (models.None? ==> r == Refused(503, "Models loading, try again in 10 seconds"))
      && (models.Some? && !(1 <= bhk <= 5) ==> r == Refused(400, "BHK must be 1-5"))
      && (models.Some? && 1 <= bhk <= 5 && !(300 <= areaSqft <= 10000) ==> r == Refused(400, "Area must be 300-10,000 sqft"))
      && (!(1 <= bhk <= 5) || !(300 <= areaSqft <= 10000) ==> StatusOf(r) in {400, 503})
  {
  }

  // ----- market_heatmap -----

  /** The market status of a location. */
  datatype Heat = Hot | Warm | Cool

  /** The label the API sends for a status. */
  function HeatLabel(h: Heat): string {
    match h
    case Hot => "\U{1F525} HOT"
    case Warm => "\U{1F324}\U{FE0F} WARM"
    case Cool => "\U{2744}\U{FE0F} COOL"
  }

  /** The status of a location with `count` properties: more than 100 is hot, more than 50 warm. */
  function MarketStatus(count: nat): Heat {
    if count > 100 then Hot else if count > 50 then Warm else Cool
  }

  /** How hot a status is, coolest first. */
  function Rank(h: Heat): nat {
    match h
    case Cool => 0
    case Warm => 1
    case Hot => 2
  }

  /** The tiers are the count ranges 101.., 51..100 and 0..50. */
  lemma MarketStatusRanges(count: nat)
    ensures MarketStatus(count) == Hot <==> count > 100
    ensures MarketStatus(count) == Warm <==> 50 < count <= 100
    ensures MarketStatus(count) == Cool <==> count <= 50
  {
  }

  /** More properties never make a market cooler, and the three labels differ. */
  lemma MarketStatusMonotone(a: nat, b: nat)
    requires a <= b
    ensures Rank(MarketStatus(a)) <= Rank(MarketStatus(b))
    ensures HeatLabel(Hot) != HeatLabel(Warm) && HeatLabel(Warm) != HeatLabel(Cool) && HeatLabel(Hot) != HeatLabel(Cool)
  {
    assert HeatLabel(Hot)[0] != HeatLabel(Warm)[0] && HeatLabel(Warm)[0] != HeatLabel(Cool)[0];
    assert HeatLabel(Hot)[0] != HeatLabel(Cool)[0];
  }

  /** `len(market_data[market_data['location'] == location])`: how often `x` occurs. */
  function Count(s: seq<string>, x: string): nat
    decreases |s|
  {
    if |s| == 0 then 0 else Count(s[..|s| - 1], x) + (if s[|s| - 1] == x then 1 else 0)
  }

  // ----- feature_engineering: location grouping -----

  /** Locations that occur at least this often keep their name. */
  const MajorCount: nat := 20

  /** `x if x in major_locations else 'Other'`, with the counts taken over `data`. */
  function GroupOne(data: seq<string>, x: string): string {
    if Count(data, x) >= MajorCount then x else OtherLocation
  }

  /** The `apply` over the elements of `s`, with the counts taken over `data`. */
  function GroupWith(s: seq<string>, data: seq<string>): (g: seq<string>)
    ensures |g| == |s|
    decreases |s|
  {
    if |s| == 0 then [] else GroupWith(s[..|s| - 1], data) + [GroupOne(data, s[|s| - 1])]
  }

  /** `df['location_grouped']`. */
  function Grouped(data: seq<string>): seq<string> {
    GroupWith(data, data)
  }

  /** Element by element, a location is kept when it is major and replaced by "Other" otherwise. */
  lemma {:induction false} GroupWithAt(s: seq<string>, data: seq<string>, i: nat)
    requires i < |s|
    ensures GroupWith(s, data)[i] == GroupOne(data, s[i])
    decreases |s|
  {
    if i < |s| - 1 {
      GroupWithAt(s[..|s| - 1], data, i);
    }
  }

  /**
   * A location is mapped to itself exactly when it occurs at least 20 times (or is "Other"
   * already), and to "Other" otherwise.
   */
  lemma GroupedSpec(data: seq<string>, i: nat)
    requires i < |data|
    ensures |Grouped(data)| == |data|
    ensures Grouped(data)[i] == data[i] <==> Count(data, data[i]) >= MajorCount || data[i] == OtherLocation
    ensures Grouped(data)[i] != data[i] ==> Grouped(data)[i] == OtherLocation
  {
    GroupWithAt(data, data, i);
  }

  /** Grouping keeps every occurrence of a major location other than "Other". */
  lemma {:induction false} GroupKeepsMajor(s: seq<string>, data: seq<string>, x: string)
    requires x != OtherLocation && Count(data, x) >= MajorCount
    ensures Count(GroupWith(s, data), x) == Count(s, x)
    decreases |s|
  {
    if |s| > 0 {
      var init := s[..|s| - 1];
      GroupKeepsMajor(init, data, x);
      assert GroupWith(s, data)[..|s| - 1] == GroupWith(init, data);
    }
  }

  /** Every element of the grouped column is "Other" or a location occurring at least 20 times in it. */
  lemma GroupedStable(data: seq<string>, i: nat)
    requires i < |data|
    ensures var g := Grouped(data); g[i] == OtherLocation || Count(g, g[i]) >= MajorCount
  {
    GroupWithAt(data, data, i);
    if Count(data, data[i]) >= MajorCount && data[i] != OtherLocation {
      GroupKeepsMajor(data, data, data[i]);
    }
  }

  /** Grouping a sequence of elements that grouping already keeps changes nothing. */
  lemma {:induction false} GroupWithFixed(s: seq<string>, g: seq<string>)
    requires forall i :: 0 <= i < |s| ==> GroupOne(g, s[i]) == s[i]
    ensures GroupWith(s, g) == s
    decreases |s|
  {
    if |s| > 0 {
      GroupWithFixed(s[..|s| - 1], g);
    }
  }

  /** Grouping is idempotent: regrouping the grouped column leaves it as it is. */
  lemma GroupedIdempotent(data: seq<string>)
    ensures Grouped(Grouped(data)) == Grouped(data)
  {
    var g := Grouped(data);
    forall i | 0 <= i < |g| ensures GroupOne(g, g[i]) == g[i] {
      GroupedStable(data, i);
    }
    GroupWithFixed(g, g);
  }

  // ----- Admin endpoints -----

  /** `ADMIN_KEY` when the environment does not set `ADMIN_API_KEY`. */
  const DefaultAdminKey: string := "change-me-in-production"

  /** `os.getenv("ADMIN_API_KEY", "change-me-in-production")`. */
  function AdminKey(configured: Option<string>): (key: string)
    ensures configured.None? ==> key == DefaultAdminKey
    ensures configured.Some? ==> key == configured.value
  {
    configured.GetOr(DefaultAdminKey)
  }

  /** The two protected endpoints. */
  datatype AdminAction = TriggerScraper | RetrainModel

  /** An admin reply: the HTTP status, and whether the endpoint's work was started. */
  datatype AdminReply = AdminReply(status: int, detail: string, ran: bool)

  /**
   * `trigger_scraper_manual` and `retrain_model_endpoint` with the `X-API-Key` header
   * `header` (None when absent): anything but the admin key is refused with 403 before any
   * work; otherwise `succeeded` gives 200 or 500. For the scraper trigger it says that the
   * scrape did not raise: `load_models` reports a failed reload by returning False, which the
   * endpoint ignores. For retraining it is what `run_model_retraining` returned; that
   * function turns every exception into False.
   */
  function Admin(action: AdminAction, header: Option<string>, adminKey: string, succeeded: bool): (r: AdminReply)
  {
    if header != Some(adminKey) then AdminReply(403, "Invalid or missing API key", false)
    else if succeeded then
      AdminReply(200, if action == TriggerScraper then "Scraper completed and models reloaded"
                      else "Model retraining completed and models reloaded", true)
    else
      AdminReply(500, if action == TriggerScraper then "Scraper failed" else "Model retraining failed - check logs", true)
  }

  /** Both endpoints do their work exactly when the header carries the admin key, and otherwise answer 403. */
  lemma AdminGate(action: AdminAction, header: Option<string>, adminKey: string, succeeded: bool)
    ensures var r := Admin(action, header, adminKey, succeeded);
      && (r.ran <==> header == Some(adminKey))
      && (r.status == 403 <==> header != Some(adminKey))
      && (!r.ran ==> r == AdminReply(403, "Invalid or missing API key", false))
      && (r.ran ==> (r.status == 200 <==> succeeded))
  {
  }

  /** Without a configured key, the published default opens both endpoints, and a missing header never does. */
  lemma DefaultKeyOpens(action: AdminAction, succeeded: bool)
    ensures Admin(action, Some("change-me-in-production"), AdminKey(None), succeeded).ran
    ensures forall key :: !Admin(action, None, key, succeeded).ran
  {
  }

  // ----- health_check -----

  /** The health reply: the status, and the number of rows of market data. */
  datatype Health = Health(status: string, dataPoints: nat)

  /** `health_check()`, with `marketRows` None while no market data is loaded. */
  function HealthCheck(modelLoaded: bool, marketRows: Option<nat>): (h: Health)
    ensures h.status == "OK" <==> modelLoaded
    ensures h.status == "OK" || h.status == "LOADING"
    ensures h.dataPoints == marketRows.GetOr(0)
  {
    Health(if modelLoaded then "OK" else "LOADING", if marketRows.Some? then marketRows.value else 0)
  }
}
