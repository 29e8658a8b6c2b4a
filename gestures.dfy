/**
 * Which reports a user gesture starts: the map's "click" handler and the search
 * box's "place_changed" handler in static/js/map.js. Marker moves, panning and
 * zooming belong to the mapping SDK and are not part of this model.
 */
module Gestures {
  import opened Common
  import opened CityName

  datatype GeocodeResult = GeocodeResult(components: seq<AddressComponent>)

  /** The reverse-geocoding callback's arguments; a `null` result list is the empty list. */
  datatype Geocode = Geocode(status: string, results: seq<GeocodeResult>)

  datatype Location = Location(lat: real, lng: real)

  datatype Gesture =
    | MapClick(at: Location, geocode: Geocode)
      /** A place chosen in the search box; `location` is `None` when the place has no geometry. */
    | PlaceChanged(name: Option<string>, location: Option<Location>)

  /** A call to one of the three reporters. */
  datatype Report = Livability(at: Location) | Prediction(city: string) | Suggestions(city: string)

  /** The name the gesture hands to the prediction and suggestion reporters, if any. */
  function NameFor(g: Gesture): (r: Option<string>)
    // a click has a name only when geocoding succeeded, and then it is the long name of
    // a locality or administrative_area_level_2 component of the first result
    ensures g.MapClick? && (g.geocode.status != "OK" || g.geocode.results == []) ==> r.None?
    ensures g.MapClick? && r.Some? ==>
              g.geocode.status == "OK" && g.geocode.results != [] &&
              exists c :: c in g.geocode.results[0].components && c.longName == r.value &&
                          (Locality in c.types || AdminAreaLevel2 in c.types)
    // a place hands on its own name
    ensures g.PlaceChanged? ==> r == g.name
  {
    match g
    case MapClick(_, geo) =>
      if geo.status == "OK" && |geo.results| > 0 then CityOf(geo.results[0].components) else None
    case PlaceChanged(name, _) => name
  }

  /** The reporters a gesture starts, in the order the handler calls them. */
  function Dispatch(g: Gesture): (reports: seq<Report>)
    // the livability report runs for every click and every place with a geometry, first
    ensures g.MapClick? ==> |reports| > 0 && reports[0] == Livability(g.at)
    ensures g.PlaceChanged? ==> (reports != [] <==> g.location.Some?)
    ensures g.PlaceChanged? && g.location.Some? ==> reports[0] == Livability(g.location.value)
    // the city reports run together, only for a non-empty name
    ensures forall c :: Prediction(c) in reports <==> Suggestions(c) in reports
    ensures forall c :: Prediction(c) in reports ==> c != ""
    ensures g.MapClick? ==>
              ((exists c :: Prediction(c) in reports) <==>
               g.geocode.status == "OK" && |g.geocode.results| > 0 && Truthy(CityOf(g.geocode.results[0].components)))
    ensures g.PlaceChanged? ==>
              ((exists c :: Prediction(c) in reports) <==> g.location.Some? && Truthy(g.name))
    ensures forall c :: Prediction(c) in reports ==> NameFor(g) == Some(c)
    // nothing else: at most the three reports, and livability only first
    ensures |reports| <= 3
    ensures forall k :: 0 < k < |reports| ==> !reports[k].Livability?
  {
    match g
    case MapClick(at, _) =>
      var name := NameFor(g);
      [Livability(at)] + (if Truthy(name) then [Prediction(name.value), Suggestions(name.value)] else [])
    case PlaceChanged(name, location) =>
      if location.None? then []
      else [Livability(location.value)] + (if Truthy(name) then [Prediction(name.value), Suggestions(name.value)] else [])
  }
}
