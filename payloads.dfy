/**
 * The JSON bodies that the backend (app.py) sends and the browser (static/js/map.js)
 * reads, as datatypes. Each body is either error-shaped or success-shaped.
 */
module Payloads {
  import opened Common

  /** A PM2.5 reading, or the sentinel text "N/A". */
  datatype Pm25 = NotAvailable | Reading(value: real)

  /** The `aqi` object: `aqi` is `None` where the backend sends "N/A". */
  datatype AqiReport = AqiReport(aqi: Option<int>, pm25: Pm25, lastUpdated: string)

  /** One nearby facility; `name` and `vicinity` are `None` where the backend sends null. */
  datatype Facility = Facility(name: Option<string>, kind: string, vicinity: Option<string>, distanceM: int)

  datatype LivabilityBody = LivabilityBody(score: int, category: string, aqi: AqiReport, wqi: int, facilities: seq<Facility>)

  /** Body of `/api/livability`. */
  datatype LivabilityPayload = LivabilityError(error: string) | LivabilityOk(body: LivabilityBody)

  datatype PredictionRecord = PredictionRecord(
    city: string, state: string,
    aqi: real, wqi: real, waterQuantity: real, populationDensity: real,
    industryDistance: real, pollution: real,
    costOfLiving: int, hospitals: int, schools: int, stores: int,
    soilType: string, prediction: string)

  /** Body of `/api/predict`: the error carries suggestions only when the city was not found. */
  datatype PredictionPayload =
    | PredictionError(error: string, suggestions: Option<seq<string>>)
    | PredictionOk(record: PredictionRecord)

  datatype Suggestion = Suggestion(
    city: string, state: string,
    aqi: real, wqi: real, pollution: real, industryDistance: real,
    costOfLiving: int, hospitals: int, schools: int, stores: int)

  /** Body of `/api/suggestions`; the browser treats a missing `suggestions` array as empty. */
  datatype SuggestionsPayload =
    | SuggestionsError(error: string)
    | SuggestionsOk(baseCity: string, state: string, suggestions: Option<seq<Suggestion>>)

  /** What a browser-side `fetch` followed by `resp.json()` yields: a failure (network error,
      malformed JSON) or the parsed body. */
  datatype Fetched<T> = FetchFailed | Received(payload: T)

  /** An HTTP reply of the backend: a status code and a JSON body. */
  datatype Reply<T> = Reply(status: int, body: T)
}
