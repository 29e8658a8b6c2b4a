# LivWell: a Dafny model of the livability report logic

LivWell shows a map. A click on the map, or a place picked in the search box, starts
up to three reports. Each report fetches a JSON body from the Flask backend and draws it
into its own region of the page:

- livability: an air-quality and water summary plus the nearby facilities;
- prediction: a machine-learning prediction for the city;
- suggestions: better-ranked cities in the same state.

This project models the decision and list-shaping logic underneath that glue, and proves what
it promises.

Browser side (`static/js/map.js`):

- `CityName`: `extractCityName`. The last `locality` component wins. Failing that, the last
  `administrative_area_level_2` component wins. JavaScript truthiness of the running name
  is modelled (`null` and `""` are falsy).
- `Gestures`: which reports the `click` and `place_changed` handlers start.
- `AirQuality`: the PM2.5 health label, with the sentinel "N/A" and the inclusive
  breakpoints 12, 35.4, 55.4 and 150.4 (exact `real` comparisons).
- `Facilities`: the snake_case-to-Title-Case header formatter, and bucketing into
  hospital, school and grocery_or_supermarket with a closed enumeration. Also the emission
  of non-empty groups in that fixed order, and the placeholder when nothing is emitted.
  `GroupFacilities` keeps the source's two loops and its `facilitiesByType` dictionary (a
  `map`).
- `Reports`: what each reporter writes into its region for a transport failure, an error
  payload, an empty payload and a success payload. Entries are structured values, not
  HTML.

Backend side (`app.py`):

- `Backend`: `get_nearby_places` (truncation to 5, reshaping, placeholder distance 500),
  `get_real_aqi` (index × 20, and the all-"N/A" fallback), the validation and fixed-order
  assembly in `get_livability`, and the case-insensitive lookup and error shapes of
  `predict`.
- `Ranking`: the `suggestions` pipeline: same state, label "suitable" in any case, base
  city removed in any case, sorted by goodness best first, top 5.

`Payloads` holds the JSON bodies both sides share. `Pipeline` feeds the backend's
livability reply into the browser's grouping. It proves that the page lists, under each
header, exactly the backend's results for that type, in order.

Rendering is a function of the payload, so rendering the same payload twice gives the same
entries by construction.

The code overwrites on every match, so the modelled rule is last match wins.

## Model

| member | source | states |
|---|---|---|
| CityName.LastTagged | static/js/map.js:83-87 | one overwriting pass yields null exactly when no component has the tag, otherwise the long name of a component that has the tag and is followed by none that has it |
| CityName.LastTaggedIndex | static/js/map.js:83-87 | the position the overwriting pass settles on: -1 exactly when no component has the tag, otherwise a tagged component with no tagged component after it |
| CityName.LastTaggedStep | static/js/map.js:83-87 | one more loop iteration overwrites the name when the component has the tag and keeps it otherwise |
| CityName.TaggedPass | static/js/map.js:83-87 | one overwriting `forEach` pass leaves the long name of the last component carrying the tag, or its starting value when none carries it |
| CityName.ExtractCityName | static/js/map.js:79-99 | the locality pass, then the administrative_area_level_2 pass only when the first left a falsy name, compute exactly the rule `CityOf`: the last locality name if truthy, else the last administrative_area_level_2 name, else the locality pass's value |
| CityName.LocalityWins | static/js/map.js:83-87 | a non-empty name on the last locality component is the result, whatever follows it |
| CityName.LaterLocalityWins | static/js/map.js:83-87 | with two locality components, the later one's name is the result (last match, not first) |
| CityName.AdminAreaFallback | static/js/map.js:89-96 | when the locality pass leaves null or "", the last administrative_area_level_2 component's name is the result |
| Gestures.NameFor | static/js/map.js:30-32 | a click has a name only when geocoding returned status OK with a result, and then it is the long name of a locality or administrative_area_level_2 component of the first result; a place hands on its own name |
| CityName.CityOf | static/js/map.js:79-99 | the result is null if and only if no component has either tag; any non-null result is the long name of a component tagged locality or administrative_area_level_2 |
| Gestures.Dispatch | static/js/map.js:22-70 | a click always starts the livability report first; a place starts it exactly when it has a geometry. Prediction and suggestions start together, only for a non-empty name: the click's is the geocoded city of the first result when status is OK, the place's is its own name. A gesture starts at most three reports, and only the first can be the livability report |
| AirQuality.Pm25Health | static/js/map.js:127-137 | "Unknown" exactly for "N/A"; otherwise each of the five labels exactly on its range: ≤12, (12,35.4], (35.4,55.4], (55.4,150.4], >150.4 |
| AirQuality.ReadingIsClassified | static/js/map.js:131-137 | every numeric reading gets one of the five classified labels, never "Unknown" |
| AirQuality.HealthMonotone | static/js/map.js:132-136 | a larger reading never gets a less severe label |
| Facilities.TypeOf | static/js/map.js:157-164 | a type string selects a bucket only if it is that bucket's key; any other string selects none and is dropped |
| Facilities.TypeOfTypeName | static/js/map.js:157-161 | each bucket's key selects that bucket |
| Facilities.ReadableTypeChars | static/js/map.js:171-173 | every `_` becomes a space, every word-initial character (start, or after `_` or another non-word character) is upper-cased, every other character is unchanged |
| Facilities.ReadableType | static/js/map.js:171-173 | the header keeps the type name's length; `ReadableTypeChars` states what happens to each character |
| Facilities.ReadableTypeIdempotent | static/js/map.js:171-173 | formatting an already formatted header changes nothing |
| Facilities.ReadableTypeJoin | static/js/map.js:171-173 | words joined by `_` are formatted one by one and joined by a space |
| Facilities.HospitalTitle | static/js/map.js:171-173 | "hospital" becomes "Hospital" |
| Facilities.SchoolTitle | static/js/map.js:171-173 | "school" becomes "School" |
| Facilities.GroceryTitle | static/js/map.js:171-173 | "grocery_or_supermarket" becomes "Grocery Or Supermarket" |
| Facilities.TitleInjective | static/js/map.js:171-173 | different buckets get different headers |
| Facilities.Bucket | static/js/map.js:163-165 | a bucket holds only input facilities of its type, and no more than the input |
| Facilities.BucketAppend | static/js/map.js:163-165 | bucketing distributes over concatenation, so each bucket keeps the input order |
| Facilities.BucketComplete | static/js/map.js:163-165 | every facility of a bucket's type lands in that bucket |
| Facilities.Recognised | static/js/map.js:163-165 | the facilities with a recognised type are input facilities with a recognised type |
| Facilities.BucketSizes | static/js/map.js:157-165 | the three buckets together are exactly as large as the recognised facilities |
| Facilities.GroupsInOrder | static/js/map.js:169-190 | the emitted groups are the hospital, school and grocery_or_supermarket groups in that order |
| Facilities.RenderFacilities | static/js/map.js:167-193 | the facilities list is never empty: either the placeholder "No nearby facilities found." alone or a list that opens with a group header |
| Facilities.AddFacility | static/js/map.js:162-164 | one step of the first loop: the facility joins the bucket its type selects, and every bucket then holds exactly the recognised facilities seen so far |
| Facilities.BucketByType | static/js/map.js:157-165 | the first loop leaves every key of the dictionary holding exactly that bucket |
| Facilities.AppendLines | static/js/map.js:181-188 | the inner loop appends one line per facility of the bucket, in bucket order |
| Facilities.EmitGroup | static/js/map.js:170-189 | one pass of the outer loop appends exactly that type's group: nothing for an empty bucket, else its header and one line per facility |
| Facilities.GroupFacilities | static/js/map.js:156-193 | the grouping loops produce exactly `RenderFacilities`: the headed non-empty groups in fixed order, or the placeholder |
| Facilities.RenderedSize | static/js/map.js:170-193 | the placeholder "No nearby facilities found." appears iff no facility is recognised; otherwise the entry count is the recognised facilities plus the non-empty groups |
| Facilities.HeaderIffNonEmpty | static/js/map.js:168-179 | a type's header appears in the rendered list exactly when its bucket is non-empty; an empty group produces no header |
| Facilities.HeaderAbsent | static/js/map.js:168-169 | an empty bucket puts no header of its type anywhere in the list |
| Facilities.HeaderShown | static/js/map.js:168-179 | a non-empty bucket puts its type's header in the list |
| Facilities.RegroupRendered | static/js/map.js:157-190 | round trip: the lines read back under a group's header are exactly that group's facilities, in input order. Nothing is read back for an empty group, because it has no header (`Facilities.HeaderIffNonEmpty`) |
| Facilities.HeaderOrder | static/js/map.js:169-179 | whenever two headers appear, the earlier one's type precedes the later one's in the order hospital, school, grocery_or_supermarket |
| Facilities.LinesAreRecognised | static/js/map.js:163-188 | every facility line comes from an input facility whose type is one of the three |
| Reports.ShowLivability | static/js/map.js:102-154 | a fetch failure shows "Error fetching data." and "No facilities data."; an error payload shows its message and "No facilities data."; a success shows five lines without an error: the score, the category, the live AQI with PM2.5 and its label, the WQI and the last-updated text, then the grouped facilities |
| Reports.LivabilityNeverMixed | static/js/map.js:118-125 | the summary holds an error exactly when the facilities region holds the "No facilities data." placeholder |
| Reports.Join | static/js/map.js:219 | joining no names gives ""; otherwise the result starts with the first name and is as long as all names plus one separator between neighbours |
| Reports.JoinSnoc | static/js/map.js:219 | joining one more name appends the separator and that name |
| Reports.PredictionLines | static/js/map.js:226-239 | thirteen lines: the label, then city and state, then Dataset AQI, Dataset WQI, Water Quantity, Population Density (%), Industry Distance (km), Pollution (%), Cost of Living (₹), Hospitals, Schools and Stores Nearby and Soil Type, each showing its own field of the record |
| Reports.ShowPrediction | static/js/map.js:211-245 | a fetch failure shows the fixed error; an error payload shows one warning with the error and, when a list is present, the names joined with ", "; a success shows exactly `PredictionLines` of the record, and never a warning |
| Reports.PredictionUnits | static/js/map.js:229-239 | in a successful prediction "%" appears exactly on the five percentage metrics, "km" only on industry distance and "₹" only on cost of living |
| Reports.MetricTitlesDistinct | static/js/map.js:229-239 | no two metric lines of a successful prediction share a title |
| Reports.PredictionWrites | static/js/map.js:205-209 | without the region nothing is written; otherwise the loading placeholder, then the settled contents |
| Reports.NotFoundWithSuggestions | static/js/map.js:215-221 | "City not found" with suggestions Hyderabad and Warangal shows "Hyderabad, Warangal" |
| Reports.SuggestionsWrites | static/js/map.js:249-253 | without the region nothing is written; otherwise the loading placeholder, then the settled contents |
| Reports.Cards | static/js/map.js:269-287 | one card per suggestion, numbered i+1 for the i-th |
| Reports.ShowSuggestions | static/js/map.js:259-287 | the region is never left empty; a card appears only for a suggestion of a success payload, and a success shows only cards or the "No better nearby suggestions found." message |
| Reports.CardsRoundTrip | static/js/map.js:269-287 | reading the cards back gives the suggestions exactly, in the order received |
| Reports.SuggestionOutcomes | static/js/map.js:255-291 | a fetch failure shows only the fixed error, an error payload only its error, a missing or empty list "No better nearby suggestions found.", otherwise one card per suggestion numbered i+1 in input order |
| Backend.NearbyPlaces | app.py:45-53 | at most 5 entries, the first results in result order with their name and vicinity, each with the requested type and distance 500 |
| Backend.GetNearbyPlaces | app.py:39-53 | the append loop over `results[:5]` (with `[]` when the request raises or has no results) returns exactly `NearbyPlaces` |
| Backend.RealAqi | app.py:56-73 | every failure (exception, non-200 status, unreadable body) and only a failure yields "N/A" in all three fields; otherwise aqi is index × 20, pm25 the reading or "N/A", last_updated "Real-Time" |
| Backend.AqiScaledRange | app.py:66-67 | an index from 1 to 5 is reported as a multiple of 20 from 20 to 100 |
| Backend.Assembled | app.py:105-107 | the accumulated list has at most five times as many facilities as there are queried types in all, and every facility has one of the queried types; the split by type is `Backend.AssembledByKind` |
| Backend.AssembledByKind | app.py:105-107 | the facilities are the hospital, school and grocery_or_supermarket lists concatenated in that order |
| Backend.LivabilityFacilities | app.py:104-107 | at most 15 facilities, each of one of the three types, ordered hospitals, then schools, then groceries |
| Backend.GetLivability | app.py:87-119 | a missing or empty lat or lng gives "Missing coordinates" with 400; otherwise 200 with score 82, "Good for Living", the AQI report, WQI 85 and the assembled facilities |
| Backend.FirstMatch | app.py:129-139 | none exactly when no row's city equals the name case-insensitively; otherwise the first such row |
| Backend.FirstMatchIgnoresCase | app.py:129 | the lookup ignores case: a name and its lower-cased form find the same row |
| Backend.Predict | app.py:123-168 | a missing city gives 400; an unknown city gives 404, an error naming it and at most three known cities as suggestions; a known city gives 200 with the first matching row (`iloc[0]`, the `FirstMatch` index), classified. Status 200 iff some row matches |
| Ranking.Candidates | app.py:185-199 | a row is a candidate iff it is in the dataset, has the base state, a label "suitable" in any case, and is not the requested city in any case |
| Ranking.GoodnessMonotone | app.py:191-196 | a row with no higher AQI and pollution and no lower WQI and industry distance has at least the goodness of the other |
| Ranking.Insert | app.py:201 | inserting into a best-first list keeps it best first and adds exactly the new row |
| Ranking.SortByGoodness | app.py:201 | the sorted rows are best first and a permutation of the input |
| Ranking.TiesKeepInputOrder | app.py:201 | two rows of equal goodness keep their input order |
| Ranking.Top | app.py:201 | `.head(5)` of the sorted rows: min(5, n) rows, best first, drawn from the input |
| Ranking.TopIsBest | app.py:201 | the top rows number min(5, n), are best first and drawn from the input, and every row left out is no better than any kept row |
| Ranking.SuggestionsAreBest | app.py:183-201 | every suggestion has the base state, a "suitable" label in any case, is not the requested city in any case, at most 5 are returned best first, and no eligible row left out beats one kept |
| Ranking.Reported | app.py:203-216 | one reshaped suggestion per top row, in rank order |
| Ranking.CollectResults | app.py:203-216 | the append loop over the top rows returns exactly `Reported` |
| Ranking.Suggestions | app.py:172-222 | a missing city gives 400, an unknown city "City not found" with 404, otherwise 200 with the base city, its state and the reported top rows |
| Pipeline.SameTypeOrder | app.py:106 | the backend queries the same type names, in the same order, as the browser's bucket keys |
| Pipeline.BucketsAreBackendLists | app.py:105-107 | each browser bucket of a livability reply is exactly the backend's list for that type |
| Pipeline.RenderedBackendFacilities | app.py:104-107 | the lines the page lists under a type's header are the backend's first (at most five) results for that type, in result order |
| Pipeline.UnknownCityWithoutCloseNames | app.py:131-137 | an unknown city with no close names still gets an empty list, which the page shows as an empty "Suggestions:" part |

## Left out

- The mapping SDK (map, marker, info window, autocomplete, geocoder, `panTo`, `setZoom`). It is a third-party library. Its geocoding results and places are model inputs only.
- `fetch`, `async`/`await`, `console.error` and `alert`. This is I/O. The outcome of each fetch is an input: a failure or a parsed body.
- Overlapping fetches racing each other on rapid gestures. This is concurrency. Each report is modelled as one fetch and render.
- HTML markup, CSS classes and number formatting. These are presentation. Entries are structured values holding the shown data.
- The livability popup (`infowindow.setContent`/`open`). It writes into the SDK's widget only.
- A payload whose `error` field is the empty string. JavaScript treats it as absent. Payloads are modelled as either error-shaped or success-shaped, which is all the backend sends.
- JavaScript prototype keys in `facilitiesByType[f.type]` (for example a type "constructor"). Facility types are a closed enumeration, and only the three keys select a bucket.
- Outbound HTTP to Google Places and OpenWeather, Flask routing, `jsonify` and `.env` loading. The responses are inputs, and the replies are status and body values.
- pandas CSV loading, joblib, the label encoders and `model.predict`. These are foreign calls. The prediction label is a caller-supplied function from a dataset row.
- `difflib.get_close_matches` internals. It is a foreign algorithm. Its answer is an input constrained as difflib promises: at most 3 names, all drawn from the dataset's cities.
- Python's and JavaScript's Unicode case mapping. `lower()` is modelled on ASCII letters only.
- Ranking.Goodness: computed exactly over the reals. The floating-point rounding of the weighted sum and the `float()`/`int()` conversions are not modelled.
- Ranking.SortByGoodness: fixes the stable order (input order) among rows with equal goodness. pandas' default sort is not stable, so the order of ties it produces may differ. No proved property other than `TiesKeepInputOrder` depends on the order of ties.
