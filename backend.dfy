/**
 * The list-shaping and validation logic of the Flask backend (app.py): nearby-place
 * reshaping, AQI scaling, livability assembly and the prediction lookup. Outbound HTTP
 * responses are inputs; the ML classifier and difflib are inputs with their contracts.
 */
module Backend {
  import opened Common
  import opened Payloads

  // ---------------- get_nearby_places ----------------

  /** One entry of the Places "results" array; `.get` gives `None` for a missing key. */
  datatype PlaceResult = PlaceResult(name: Option<string>, vicinity: Option<string>)

  /** The Places request: it raised, or its JSON had (or lacked) a "results" array. */
  datatype NearbyResponse = NearbyFailed | NearbyOk(results: Option<seq<PlaceResult>>)

  const NearbyLimit: nat := 5
  const PlaceholderDistanceM: int := 500

  /** `results`, or `[]` when the request raised or the key was missing. */
  function ResultsOf(resp: NearbyResponse): seq<PlaceResult>
  {
    if resp.NearbyOk? && resp.results.Some? then resp.results.value else []
  }

  function ToFacility(p: PlaceResult, placeType: string): Facility
  {
    Facility(p.name, placeType, p.vicinity, PlaceholderDistanceM)
  }

  /** What `get_nearby_places` returns. */
  function NearbyPlaces(resp: NearbyResponse, placeType: string): (r: seq<Facility>)
    ensures |r| == Min(NearbyLimit, |ResultsOf(resp)|)
    ensures forall i :: 0 <= i < |r| ==> r[i].name == ResultsOf(resp)[i].name && r[i].vicinity == ResultsOf(resp)[i].vicinity
    ensures forall f :: f in r ==> f.kind == placeType && f.distanceM == PlaceholderDistanceM
  {
    var rs := ResultsOf(resp);
    var n := Min(NearbyLimit, |rs|);
    seq(n, i requires 0 <= i < n => ToFacility(rs[i], placeType))
  }

  /** The loop of `get_nearby_places` over `results[:5]`. */
  method GetNearbyPlaces(resp: NearbyResponse, placeType: string) returns (places: seq<Facility>)
    ensures places == NearbyPlaces(resp, placeType)
  {
    var results := match resp
      case NearbyFailed => []
      case NearbyOk(rs) => if rs.Some? then rs.value else [];
    var head := if |results| <= NearbyLimit then results else results[..NearbyLimit];
    places := [];
    var i := 0;
    while i < |head|
      invariant 0 <= i <= |head|
      invariant |places| == i
      invariant forall k :: 0 <= k < i ==> places[k] == ToFacility(head[k], placeType)
    {
      places := places + [ToFacility(head[i], placeType)];
      i := i + 1;
    }
  }

  // ---------------- get_real_aqi ----------------

  /** The parts of the OpenWeather reply that are read: `list[0].main.aqi` and
      `list[0].components.pm2_5` (`None` when that key is missing). */
  datatype PollutionBody = PollutionBody(aqiIndex: int, pm25: Option<real>)

  /** The OpenWeather request: it raised, or it answered with a status and a body that
      either has the keys read above (`Some`) or makes the key lookups raise (`None`). */
  datatype AqiResponse = AqiFailed | AqiReply(status: int, body: Option<PollutionBody>)

  const AqiScale: int := 20

  const Unavailable: AqiReport := AqiReport(None, NotAvailable, "N/A")

  function RealAqi(resp: AqiResponse): (r: AqiReport)
    // every failure gives "N/A" in all three fields, and only a failure does
    ensures r == Unavailable <==> (resp.AqiFailed? || resp.status != 200 || resp.body.None?)
    ensures r != Unavailable ==>
              r.aqi == Some(resp.body.value.aqiIndex * AqiScale) && r.lastUpdated == "Real-Time" &&
              r.pm25 == (if resp.body.value.pm25.Some? then Reading(resp.body.value.pm25.value) else NotAvailable)
  {
    match resp
    case AqiFailed => Unavailable
    case AqiReply(status, body) =>
      if status != 200 then Unavailable
      else
        match body
        case None => Unavailable
        case Some(b) =>
          AqiReport(Some(b.aqiIndex * AqiScale),
                    if b.pm25.Some? then Reading(b.pm25.value) else NotAvailable,
                    "Real-Time")
  }

  /** OpenWeather's index 1..5 becomes 20..100. */
  lemma AqiScaledRange(resp: AqiResponse)
    requires resp.AqiReply? && resp.status == 200 && resp.body.Some?
    requires 1 <= resp.body.value.aqiIndex <= 5
    ensures RealAqi(resp).aqi.Some? && 20 <= RealAqi(resp).aqi.value <= 100
    ensures RealAqi(resp).aqi.value % 20 == 0
  {
  }

  // ---------------- get_livability ----------------

  /** `not lat`: the query parameter is absent or empty. */
  predicate Missing(p: Option<string>)
  {
    p.None? || p.value == ""
  }

  /** The place types queried, in order. */
  const FacilityKinds: seq<string> := ["hospital", "school", "grocery_or_supermarket"]

  const DummyScore: int := 82
  const DummyCategory: string := "Good for Living"
  const DummyWqi: int := 85

  /** The facilities of the place types `kinds`, concatenated in that order. */
  function Assembled(nearby: string -> NearbyResponse, kinds: seq<string>): (r: seq<Facility>)
    ensures |r| <= NearbyLimit * |kinds|
    ensures forall f :: f in r ==> f.kind in kinds
  {
    if kinds == [] then []
    else Assembled(nearby, kinds[..|kinds| - 1]) + NearbyPlaces(nearby(kinds[|kinds| - 1]), kinds[|kinds| - 1])
  }

  /** The assembled list is the three per-type lists, in the order of `FacilityKinds`. */
  lemma AssembledByKind(nearby: string -> NearbyResponse)
    ensures Assembled(nearby, FacilityKinds) ==
            NearbyPlaces(nearby("hospital"), "hospital") +
            NearbyPlaces(nearby("school"), "school") +
            NearbyPlaces(nearby("grocery_or_supermarket"), "grocery_or_supermarket")
  {
    assert FacilityKinds[..2] == ["hospital", "school"] && FacilityKinds[..2][..1] == ["hospital"];
    assert ["hospital"][..0] == [];
  }

  /** The position of a place type in `FacilityKinds` (3 for any other text). */
  function KindRank(kind: string): nat
  {
    if kind == "hospital" then 0
    else if kind == "school" then 1
    else if kind == "grocery_or_supermarket" then 2
    else 3
  }

  /** The `/api/livability` handler. */
  method GetLivability(lat: Option<string>, lng: Option<string>, aqi: AqiResponse, nearby: string -> NearbyResponse)
    returns (reply: Reply<LivabilityPayload>)
    ensures Missing(lat) || Missing(lng) ==> reply == Reply(400, LivabilityError("Missing coordinates"))
    ensures !Missing(lat) && !Missing(lng) ==>
              reply == Reply(200, LivabilityOk(LivabilityBody(DummyScore, DummyCategory, RealAqi(aqi), DummyWqi,
                                                                Assembled(nearby, FacilityKinds))))
  {
    if Missing(lat) || Missing(lng) {
      return Reply(400, LivabilityError("Missing coordinates"));
    }
    var aqiData := RealAqi(aqi);
    var facilities: seq<Facility> := [];
    var k := 0;
    while k < |FacilityKinds|
      invariant 0 <= k <= |FacilityKinds|
      invariant facilities == Assembled(nearby, FacilityKinds[..k])
    {
      var placeType := FacilityKinds[k];
      var places := GetNearbyPlaces(nearby(placeType), placeType);
      assert FacilityKinds[..k + 1][..k] == FacilityKinds[..k];
      facilities := facilities + places;
      k := k + 1;
    }
    assert FacilityKinds[..|FacilityKinds|] == FacilityKinds;
    reply := Reply(200, LivabilityOk(LivabilityBody(DummyScore, DummyCategory, aqiData, DummyWqi, facilities)));
  }

  /** A livability reply carries at most fifteen facilities, hospitals first, then
      schools, then groceries. */
  lemma LivabilityFacilities(nearby: string -> NearbyResponse)
    ensures |Assembled(nearby, FacilityKinds)| <= 15
    ensures forall f :: f in Assembled(nearby, FacilityKinds) ==> f.kind in FacilityKinds
    ensures forall i, j :: 0 <= i < j < |Assembled(nearby, FacilityKinds)| ==>
              KindRank(Assembled(nearby, FacilityKinds)[i].kind) <= KindRank(Assembled(nearby, FacilityKinds)[j].kind)
  {
    AssembledByKind(nearby);
    KindsInOrder(NearbyPlaces(nearby("hospital"), "hospital"),
                 NearbyPlaces(nearby("school"), "school"),
                 NearbyPlaces(nearby("grocery_or_supermarket"), "grocery_or_supermarket"));
  }

  lemma KindsInOrder(h: seq<Facility>, s: seq<Facility>, g: seq<Facility>)
    requires forall f :: f in h ==> f.kind == "hospital"
    requires forall f :: f in s ==> f.kind == "school"
    requires forall f :: f in g ==> f.kind == "grocery_or_supermarket"
    ensures forall f :: f in h + s + g ==> f.kind in FacilityKinds
    ensures forall i, j :: 0 <= i < j < |h + s + g| ==> KindRank((h + s + g)[i].kind) <= KindRank((h + s + g)[j].kind)
  {
    var r := h + s + g;
    forall k | 0 <= k < |r|
      ensures KindRank(r[k].kind) == (if k < |h| then 0 else if k < |h| + |s| then 1 else 2)
    {
      if k < |h| { assert r[k] == h[k]; }
      else if k < |h| + |s| { assert r[k] == s[k - |h|]; }
      else { assert r[k] == g[k - |h| - |s|]; }
    }
  }

  // ---------------- dataset and predict ----------------

  /** One row of final_dataset.csv, with the columns the handlers read. */
  datatype CityRow = CityRow(
    city: string, state: string, livabilityLabel: string,
    aqi: real, wqi: real, waterQuantity: real, populationDensity: real,
    industryDistance: real, pollution: real,
    costOfLiving: int, hospitals: int, schools: int, stores: int,
    soilType: string)

  /** `City.str.lower() == city_name.lower()` */
  predicate SameCity(row: CityRow, name: string)
  {
    Lower(row.city) == Lower(name)
  }

  /** The index of `matches.iloc[0]`: the first row whose city equals `name`
      case-insensitively; `None` when `matches` is empty. */
  function FirstMatch(df: seq<CityRow>, name: string): (r: Option<nat>)
    ensures r.None? <==> forall i :: 0 <= i < |df| ==> !SameCity(df[i], name)
    ensures r.Some? ==> r.value < |df| && SameCity(df[r.value], name) &&
                        forall j :: 0 <= j < r.value ==> !SameCity(df[j], name)
  {
    if df == [] then None
    else if SameCity(df[0], name) then Some(0)
    else
      match FirstMatch(df[1..], name)
      case None => None
      case Some(k) => Some(k + 1)
  }

  /** The lookup ignores case: a name and its lower-cased form find the same row. */
  lemma {:induction false} FirstMatchIgnoresCase(df: seq<CityRow>, name: string)
    ensures FirstMatch(df, Lower(name)) == FirstMatch(df, name)
  {
    LowerIdempotent(name);
    if df != [] {
      FirstMatchIgnoresCase(df[1..], name);
    }
  }

  /** The distinct city names of the dataset, as difflib's candidates. */
  function KnownCities(df: seq<CityRow>): set<string>
  {
    set i | 0 <= i < |df| :: df[i].city
  }

  /** What difflib.get_close_matches(name, cities, n=3) may return. */
  predicate CloseMatchesContract(df: seq<CityRow>, close: seq<string>)
  {
    |close| <= 3 && forall c :: c in close ==> c in KnownCities(df)
  }

  function ToRecord(row: CityRow, prediction: string): PredictionRecord
  {
    PredictionRecord(row.city, row.state, row.aqi, row.wqi, row.waterQuantity, row.populationDensity,
                     row.industryDistance, row.pollution, row.costOfLiving, row.hospitals, row.schools,
                     row.stores, row.soilType, prediction)
  }

  const CityRequired: string := "City parameter is required"

  /** The `/api/predict` handler; `classify` stands for the label encoders, the model
      and the inverse label transform, and `close` for difflib's answer. */
  function Predict(city: Option<string>, df: seq<CityRow>, close: seq<string>, classify: CityRow -> string)
    : (reply: Reply<PredictionPayload>)
    requires CloseMatchesContract(df, close)
    ensures Missing(city) ==> reply == Reply(400, PredictionError(CityRequired, None))
    // an unknown city: 404, an error naming it, at most three known close names
    ensures !Missing(city) && FirstMatch(df, city.value).None? ==>
              reply.status == 404 &&
              reply.body == PredictionError("City '" + city.value + "' not found", Some(close)) &&
              |reply.body.suggestions.value| <= 3 &&
              forall c :: c in reply.body.suggestions.value ==> exists i :: 0 <= i < |df| && df[i].city == c
    // a known city: the first matching row, classified
    ensures !Missing(city) && FirstMatch(df, city.value).Some? ==>
              var i := FirstMatch(df, city.value).value;
              reply.status == 200 &&
              reply.body == PredictionOk(ToRecord(df[i], classify(df[i])))
    ensures reply.status == 200 <==> !Missing(city) && exists i :: 0 <= i < |df| && SameCity(df[i], city.value)
  {
    if Missing(city) then Reply(400, PredictionError(CityRequired, None))
    else
      match FirstMatch(df, city.value)
      case None => Reply(404, PredictionError("City '" + city.value + "' not found", Some(close)))
      case Some(i) => Reply(200, PredictionOk(ToRecord(df[i], classify(df[i]))))
  }
}
