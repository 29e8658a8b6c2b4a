/**
 * How the three reporters of static/js/map.js turn a fetched payload into the entries
 * of their display regions: `renderLivability` (with the error path of
 * `fetchLivability`), `fetchMLPrediction` and `fetchSuggestions`. Entries are
 * structured values standing for the `<li>`/`<div>` items the page writes.
 */
module Reports {
  import opened Common
  import opened Payloads
  import opened AirQuality
  import opened Facilities

  // ---------------- livability ----------------

  datatype SummaryEntry =
    | ScoreLine(score: int)
    | CategoryLine(category: string)
    | LiveAqiLine(aqi: Option<int>, pm25: Pm25, health: Health)
    | WqiLine(wqi: int)
    | LastUpdatedLine(text: string)
    | SummaryError(message: string)

  /** The contents of the "summary" and "facilities" regions after a livability report. */
  datatype LivabilityView = LivabilityView(summary: seq<SummaryEntry>, facilities: seq<FacilityEntry>)

  const FetchErrorText: string := "Error fetching data."

  function ShowLivability(f: Fetched<LivabilityPayload>): (v: LivabilityView)
    // a transport or parse failure: a fixed error and the "No facilities data." placeholder
    ensures f.FetchFailed? ==> v == LivabilityView([SummaryError(FetchErrorText)], [NoFacilitiesData])
    // an error payload: its own message, the same placeholder
    ensures f.Received? && f.payload.LivabilityError? ==>
              v == LivabilityView([SummaryError(f.payload.error)], [NoFacilitiesData])
    // a success payload: five summary lines, without any error line
    ensures f.Received? && f.payload.LivabilityOk? ==>
              |v.summary| == 5 && forall k :: 0 <= k < 5 ==> !v.summary[k].SummaryError?
    // in order: score, category, live AQI with PM2.5 and its label, WQI, last update
    ensures f.Received? && f.payload.LivabilityOk? ==>
              var b := f.payload.body;
              v.summary[0] == ScoreLine(b.score) &&
              v.summary[1] == CategoryLine(b.category) &&
              v.summary[2] == LiveAqiLine(b.aqi.aqi, b.aqi.pm25, Pm25Health(b.aqi.pm25)) &&
              v.summary[3] == WqiLine(b.wqi) &&
              v.summary[4] == LastUpdatedLine(b.aqi.lastUpdated) &&
              v.facilities == RenderFacilities(b.facilities)
  {
    match f
    case FetchFailed => LivabilityView([SummaryError(FetchErrorText)], [NoFacilitiesData])
    case Received(LivabilityError(e)) => LivabilityView([SummaryError(e)], [NoFacilitiesData])
    case Received(LivabilityOk(b)) =>
      LivabilityView(
        [ ScoreLine(b.score), CategoryLine(b.category),
          LiveAqiLine(b.aqi.aqi, b.aqi.pm25, Pm25Health(b.aqi.pm25)),
          WqiLine(b.wqi), LastUpdatedLine(b.aqi.lastUpdated) ],
        RenderFacilities(b.facilities))
  }

  /** An error is never shown beside facilities: the facilities region holds real entries
      only when the summary shows no error. */
  lemma LivabilityNeverMixed(f: Fetched<LivabilityPayload>)
    ensures (exists k :: 0 <= k < |ShowLivability(f).summary| && ShowLivability(f).summary[k].SummaryError?) <==>
            ShowLivability(f).facilities == [NoFacilitiesData]
  {
    var v := ShowLivability(f);
    if !(f.Received? && f.payload.LivabilityOk?) {
      assert v.summary[0].SummaryError?;
    }
  }

  // ---------------- prediction ----------------

  datatype Unit = Percent | Kilometres | Rupees | Plain

  datatype Value = RealValue(r: real) | IntValue(n: int) | TextValue(s: string)

  datatype PredictionEntry =
    | PredictionLoading  // "Loading ML prediction..."
    | PredictionLabel(prediction: string)
    | CityStateLine(city: string, state: string)
    | MetricLine(title: string, value: Value, unit: Unit)
      /** The error, and the joined suggestions when the payload has a suggestion list. */
    | PredictionWarning(error: string, suggestions: Option<string>)
    | PredictionFailure  // "Error fetching ML prediction."

  /** The total length of the strings `ss`. */
  function TotalLength(ss: seq<string>): nat
  {
    if ss == [] then 0 else |ss[0]| + TotalLength(ss[1..])
  }

  /** `Array.prototype.join`: the strings in order with `sep` between neighbours. */
  function Join(ss: seq<string>, sep: string): (r: string)
    ensures ss == [] ==> r == ""
    ensures ss != [] ==> |r| == TotalLength(ss) + (|ss| - 1) * |sep|
    ensures ss != [] ==> |ss[0]| <= |r| && r[..|ss[0]|] == ss[0]
  {
    if ss == [] then ""
    else if |ss| == 1 then ss[0]
    else
      var tail := Join(ss[1..], sep);
      assert |ss[0] + sep + tail| == |ss[0]| + |sep| + |tail|;
      assert (ss[0] + sep + tail)[..|ss[0]|] == ss[0];
      ss[0] + sep + tail
  }

  /** Joining one more name appends the separator and that name. */
  lemma {:induction false} JoinSnoc(ss: seq<string>, s: string, sep: string)
    requires ss != []
    ensures Join(ss + [s], sep) == Join(ss, sep) + sep + s
  {
    if |ss| > 1 {
      assert (ss + [s])[1..] == ss[1..] + [s];
      JoinSnoc(ss[1..], s, sep);
    }
  }

  const SuggestionSeparator: string := ", "

  /** The metric titles, in page order. */
  const AqiTitle: string := "Dataset AQI"
  const WqiTitle: string := "Dataset WQI"
  const WaterTitle: string := "Water Quantity"
  const DensityTitle: string := "Population Density"
  const IndustryTitle: string := "Industry Distance"
  const PollutionTitle: string := "Pollution"
  const CostTitle: string := "Cost of Living"
  const HospitalsTitle: string := "Hospitals Nearby"
  const SchoolsTitle: string := "Schools Nearby"
  const StoresTitle: string := "Stores Nearby"
  const SoilTitle: string := "Soil Type"

  /** The thirteen lines of a successful prediction: the label, city and state, then each
      metric with its own field of the record and the unit the page prints. */
  function PredictionLines(r: PredictionRecord): (es: seq<PredictionEntry>)
    ensures |es| == 13
    ensures es[0] == PredictionLabel(r.prediction) && es[1] == CityStateLine(r.city, r.state)
    ensures es[2] == MetricLine(AqiTitle, RealValue(r.aqi), Percent)
    ensures es[3] == MetricLine(WqiTitle, RealValue(r.wqi), Percent)
    ensures es[4] == MetricLine(WaterTitle, RealValue(r.waterQuantity), Percent)
    ensures es[5] == MetricLine(DensityTitle, RealValue(r.populationDensity), Percent)
    ensures es[6] == MetricLine(IndustryTitle, RealValue(r.industryDistance), Kilometres)
    ensures es[7] == MetricLine(PollutionTitle, RealValue(r.pollution), Percent)
    ensures es[8] == MetricLine(CostTitle, IntValue(r.costOfLiving), Rupees)
    ensures es[9] == MetricLine(HospitalsTitle, IntValue(r.hospitals), Plain)
    ensures es[10] == MetricLine(SchoolsTitle, IntValue(r.schools), Plain)
    ensures es[11] == MetricLine(StoresTitle, IntValue(r.stores), Plain)
    ensures es[12] == MetricLine(SoilTitle, TextValue(r.soilType), Plain)
  {
    seq(13, k requires 0 <= k < 13 => PredictionLineAt(r, k))
  }

  /** The `k`-th line of a successful prediction, in page order. */
  function PredictionLineAt(r: PredictionRecord, k: int): PredictionEntry
    requires 0 <= k < 13
  {
    match k
    case 0 => PredictionLabel(r.prediction)
    case 1 => CityStateLine(r.city, r.state)
    case 2 => MetricLine(AqiTitle, RealValue(r.aqi), Percent)
    case 3 => MetricLine(WqiTitle, RealValue(r.wqi), Percent)
    case 4 => MetricLine(WaterTitle, RealValue(r.waterQuantity), Percent)
    case 5 => MetricLine(DensityTitle, RealValue(r.populationDensity), Percent)
    case 6 => MetricLine(IndustryTitle, RealValue(r.industryDistance), Kilometres)
    case 7 => MetricLine(PollutionTitle, RealValue(r.pollution), Percent)
    case 8 => MetricLine(CostTitle, IntValue(r.costOfLiving), Rupees)
    case 9 => MetricLine(HospitalsTitle, IntValue(r.hospitals), Plain)
    case 10 => MetricLine(SchoolsTitle, IntValue(r.schools), Plain)
    case 11 => MetricLine(StoresTitle, IntValue(r.stores), Plain)
    case _ => MetricLine(SoilTitle, TextValue(r.soilType), Plain)
  }

  /** What the prediction region holds once the fetch has settled. */
  function ShowPrediction(f: Fetched<PredictionPayload>): (es: seq<PredictionEntry>)
    ensures f.FetchFailed? ==> es == [PredictionFailure]
    // an error payload: one warning with the error and, when present, the joined suggestions
    ensures f.Received? && f.payload.PredictionError? ==>
              es == [PredictionWarning(f.payload.error,
                        if f.payload.suggestions.Some? then Some(Join(f.payload.suggestions.value, SuggestionSeparator)) else None)]
    // a success payload: the label, city and state, then the eleven metrics, and no warning
    ensures f.Received? && f.payload.PredictionOk? ==> es == PredictionLines(f.payload.record)
  {
    match f
    case FetchFailed => [PredictionFailure]
    case Received(PredictionError(e, sugg)) =>
      [PredictionWarning(e, if sugg.Some? then Some(Join(sugg.value, SuggestionSeparator)) else None)]
    case Received(PredictionOk(r)) => PredictionLines(r)
  }

  /** The units of a successful prediction: "%" on the five percentage metrics, "km" on
      the industry distance, "₹" on the cost of living, none on the rest. */
  lemma PredictionUnits(f: Fetched<PredictionPayload>)
    requires f.Received? && f.payload.PredictionOk?
    ensures forall k :: 2 <= k < 13 ==>
              (ShowPrediction(f)[k].unit == Percent <==> k in {2, 3, 4, 5, 7}) &&
              (ShowPrediction(f)[k].unit == Kilometres <==> k == 6) &&
              (ShowPrediction(f)[k].unit == Rupees <==> k == 8)
  {
    var es := ShowPrediction(f);
    forall k | 2 <= k < 13
      ensures (es[k].unit == Percent <==> k in {2, 3, 4, 5, 7})
      ensures (es[k].unit == Kilometres <==> k == 6) && (es[k].unit == Rupees <==> k == 8)
    {
    }
  }

  /** No two metric lines of a successful prediction share a title. */
  lemma MetricTitlesDistinct(f: Fetched<PredictionPayload>)
    requires f.Received? && f.payload.PredictionOk?
    ensures forall j, k :: 2 <= j < k < 13 ==> ShowPrediction(f)[j].title != ShowPrediction(f)[k].title
  {
    var es := ShowPrediction(f);
    forall j, k | 2 <= j < k < 13 ensures es[j].title != es[k].title {
      assert |es[j].title| != |es[k].title| || es[j].title[0] != es[k].title[0] || es[j].title[1] != es[k].title[1] ||
             es[j].title[8] != es[k].title[8];
    }
  }

  /** The writes `fetchMLPrediction` makes to its region: none without the region, else
      the loading placeholder and then the settled contents. */
  function PredictionWrites(regionPresent: bool, f: Fetched<PredictionPayload>): (ws: seq<seq<PredictionEntry>>)
    ensures !regionPresent ==> ws == []
    ensures regionPresent ==> |ws| == 2 && ws[0] == [PredictionLoading] && ws[1] == ShowPrediction(f)
  {
    if regionPresent then [[PredictionLoading], ShowPrediction(f)] else []
  }

  /** A city that is not found, with two suggestions, shows "Hyderabad, Warangal". */
  lemma NotFoundWithSuggestions()
    ensures ShowPrediction(Received(PredictionError("City not found", Some(["Hyderabad", "Warangal"])))) ==
            [PredictionWarning("City not found", Some("Hyderabad, Warangal"))]
  {
    assert ["Hyderabad"] + ["Warangal"] == ["Hyderabad", "Warangal"];
    JoinSnoc(["Hyderabad"], "Warangal", SuggestionSeparator);
    assert "Hyderabad" + ", " + "Warangal" == "Hyderabad, Warangal";
  }

  // ---------------- suggestions ----------------

  datatype SuggestionEntry =
    | SuggestionsLoading  // "Loading nearby good areas..."
    | SuggestionsErrorText(message: string)
    | NoSuggestions  // "No better nearby suggestions found."
      /** One card: its 1-based number, the city, and the fixed "Suitable" badge. */
    | Card(number: nat, suggestion: Suggestion)
    | SuggestionsFailure  // "Error loading suggestions."

  /** One card per suggestion, numbered from 1 in array order. */
  function Cards(ss: seq<Suggestion>): (cs: seq<SuggestionEntry>)
    ensures |cs| == |ss|
    ensures forall i :: 0 <= i < |cs| ==> cs[i].Card? && cs[i].number == i + 1
  {
    seq(|ss|, i requires 0 <= i < |ss| => Card(i + 1, ss[i]))
  }

  /** What the suggestions region holds once the fetch has settled: never nothing, and a
      card only for a suggestion of a success payload. */
  function ShowSuggestions(f: Fetched<SuggestionsPayload>): (es: seq<SuggestionEntry>)
    ensures es != []
    ensures forall i :: 0 <= i < |es| && es[i].Card? ==>
              f.Received? && f.payload.SuggestionsOk? && f.payload.suggestions.Some? &&
              es[i].suggestion in f.payload.suggestions.value
    ensures f.Received? && f.payload.SuggestionsOk? ==>
              forall i :: 0 <= i < |es| ==> es[i].Card? || es[i] == NoSuggestions
  {
    match f
    case FetchFailed => [SuggestionsFailure]
    case Received(SuggestionsError(e)) => [SuggestionsErrorText(e)]
    case Received(SuggestionsOk(_, _, list)) =>
      if list.None? || |list.value| == 0 then [NoSuggestions] else Cards(list.value)
  }

  /** The writes `fetchSuggestions` makes to its region. */
  function SuggestionsWrites(regionPresent: bool, f: Fetched<SuggestionsPayload>): (ws: seq<seq<SuggestionEntry>>)
    ensures !regionPresent ==> ws == []
    ensures regionPresent ==> |ws| == 2 && ws[0] == [SuggestionsLoading] && ws[1] == ShowSuggestions(f)
  {
    if regionPresent then [[SuggestionsLoading], ShowSuggestions(f)] else []
  }

  /** Reads the cards back: the suggestion of every card, in order. */
  function CardSuggestions(es: seq<SuggestionEntry>): seq<Suggestion>
  {
    if es == [] then []
    else (if es[0].Card? then [es[0].suggestion] else []) + CardSuggestions(es[1..])
  }

  lemma {:induction false} CardsRoundTrip(ss: seq<Suggestion>)
    ensures CardSuggestions(Cards(ss)) == ss
  {
    assert Cards(ss) == seq(|ss|, i requires 0 <= i < |ss| => Card(i + 1, ss[i]));
    CardsRenumbered(ss, 1);
  }

  /** Cards numbered from any start read back to the same suggestions. */
  lemma {:induction false} CardsRenumbered(ss: seq<Suggestion>, start: nat)
    ensures CardSuggestions(seq(|ss|, i requires 0 <= i < |ss| => Card(i + start, ss[i]))) == ss
  {
    var cs := seq(|ss|, i requires 0 <= i < |ss| => Card(i + start, ss[i]));
    if ss != [] {
      assert cs[1..] == seq(|ss| - 1, i requires 0 <= i < |ss| - 1 => Card(i + (start + 1), ss[1..][i]));
      CardsRenumbered(ss[1..], start + 1);
    }
  }

  /** The outcomes of a suggestion report: an error shows only the error; a missing or
      empty list shows the fixed message; otherwise the cards show every suggestion in
      the order received, numbered 1, 2, ... */
  lemma SuggestionOutcomes(f: Fetched<SuggestionsPayload>)
    ensures f.FetchFailed? ==> ShowSuggestions(f) == [SuggestionsFailure]
    ensures f.Received? && f.payload.SuggestionsError? ==> ShowSuggestions(f) == [SuggestionsErrorText(f.payload.error)]
    ensures f.Received? && f.payload.SuggestionsOk? && (f.payload.suggestions.None? || f.payload.suggestions.value == []) ==>
              ShowSuggestions(f) == [NoSuggestions]
    ensures f.Received? && f.payload.SuggestionsOk? && f.payload.suggestions.Some? && f.payload.suggestions.value != [] ==>
              var es := ShowSuggestions(f);
              CardSuggestions(es) == f.payload.suggestions.value &&
              |es| == |f.payload.suggestions.value| &&
              forall i :: 0 <= i < |es| ==> es[i].Card? && es[i].number == i + 1
  {
    if f.Received? && f.payload.SuggestionsOk? && f.payload.suggestions.Some? && f.payload.suggestions.value != [] {
      CardsRoundTrip(f.payload.suggestions.value);
    }
  }
}
