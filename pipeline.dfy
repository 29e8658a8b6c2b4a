/**
 * The backend's livability reply (app.py) as the browser's grouping
 * (static/js/map.js) sees it: the browser regroups into exactly the per-type lists
 * the backend fetched, so nothing the backend sends is dropped or reordered.
 */
module Pipeline {
  import opened Common
  import opened Payloads
  import opened Facilities
  import opened Backend
  import opened Reports

  /** The backend queries the same type names, in the same order, as the browser's
      `facilitiesByType` keys. */
  lemma SameTypeOrder()
    ensures |FacilityKinds| == |TypeOrder|
    ensures forall k :: 0 <= k < |TypeOrder| ==> FacilityKinds[k] == TypeName(TypeOrder[k])
  {
  }

  /** Bucketing a list whose facilities all have one type string keeps all or nothing. */
  lemma {:induction false} BucketUniform(fs: seq<Facility>, kind: string, t: FacilityType)
    requires forall f :: f in fs ==> f.kind == kind
    ensures Bucket(fs, t) == if TypeOf(kind) == Some(t) then fs else []
  {
    if fs != [] {
      var init := fs[..|fs| - 1];
      assert forall f :: f in init ==> f in fs;
      BucketUniform(init, kind, t);
      assert init + [fs[|fs| - 1]] == fs;
    }
  }

  /** Bucketing three single-type lists in the key order gives back the list of the
      bucket's type. */
  lemma BucketOfThree(h: seq<Facility>, s: seq<Facility>, g: seq<Facility>, t: FacilityType)
    requires forall f :: f in h ==> f.kind == TypeName(Hospital)
    requires forall f :: f in s ==> f.kind == TypeName(School)
    requires forall f :: f in g ==> f.kind == TypeName(Grocery)
    ensures Bucket(h + s + g, t) == match t case Hospital => h case School => s case Grocery => g
  {
    BucketAppend(h + s, g, t);
    BucketAppend(h, s, t);
    TypeOfTypeName(Hospital);
    TypeOfTypeName(School);
    TypeOfTypeName(Grocery);
    BucketUniform(h, TypeName(Hospital), t);
    BucketUniform(s, TypeName(School), t);
    BucketUniform(g, TypeName(Grocery), t);
  }

  /** Each browser bucket of a livability reply is the backend's list for that type. */
  lemma BucketsAreBackendLists(nearby: string -> NearbyResponse, t: FacilityType)
    ensures Bucket(Assembled(nearby, FacilityKinds), t) == NearbyPlaces(nearby(TypeName(t)), TypeName(t))
  {
    AssembledByKind(nearby);
    var h := NearbyPlaces(nearby(TypeName(Hospital)), TypeName(Hospital));
    var s := NearbyPlaces(nearby(TypeName(School)), TypeName(School));
    var g := NearbyPlaces(nearby(TypeName(Grocery)), TypeName(Grocery));
    BucketOfThree(h, s, g, t);
  }

  /** The lines the page lists under a type's header are the backend's first (at most
      five) results for that type, in result order. */
  lemma RenderedBackendFacilities(nearby: string -> NearbyResponse, t: FacilityType)
    ensures LinesUnder(RenderFacilities(Assembled(nearby, FacilityKinds)), Title(t)) ==
            Lines(NearbyPlaces(nearby(TypeName(t)), TypeName(t)))
    ensures |LinesUnder(RenderFacilities(Assembled(nearby, FacilityKinds)), Title(t))| <= NearbyLimit
  {
    RegroupRendered(Assembled(nearby, FacilityKinds), t);
    BucketsAreBackendLists(nearby, t);
  }

  /** An unknown city with no close names still carries an (empty) suggestion list, and
      an empty array is truthy in the browser, so the warning shows an empty
      "Suggestions:" part rather than none. */
  lemma UnknownCityWithoutCloseNames(name: string, df: seq<CityRow>, classify: CityRow -> string)
    requires name != "" && FirstMatch(df, name).None?
    ensures Predict(Some(name), df, [], classify).status == 404
    ensures ShowPrediction(Received(Predict(Some(name), df, [], classify).body)) ==
            [PredictionWarning("City '" + name + "' not found", Some(""))]
  {
  }
}
