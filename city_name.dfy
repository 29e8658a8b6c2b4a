/**
 * City-name selection from a reverse-geocoding result (`extractCityName` in
 * static/js/map.js). Two passes over the address components: the last component
 * tagged "locality" wins; when that leaves no usable name, the last component
 * tagged "administrative_area_level_2" wins.
 */
module CityName {
  import opened Common

  datatype AddressComponent = AddressComponent(longName: string, types: seq<string>)

  const Locality: string := "locality"
  const AdminAreaLevel2: string := "administrative_area_level_2"

  /** JavaScript truthiness of the `cityName` variable: `null` and "" are falsy. */
  predicate Truthy(name: Option<string>)
  {
    name.Some? && name.value != ""
  }

  /** The component at `i` is the last one carrying `tag`. */
  ghost predicate IsLastTagged(cs: seq<AddressComponent>, tag: string, i: int)
  {
    0 <= i < |cs| && tag in cs[i].types &&
    forall j :: i < j < |cs| ==> tag !in cs[j].types
  }

  /** The index of the last component carrying `tag`, or -1 when none does. */
  function LastTaggedIndex(cs: seq<AddressComponent>, tag: string): (r: int)
    ensures -1 <= r < |cs|
    ensures r == -1 <==> forall i :: 0 <= i < |cs| ==> tag !in cs[i].types
    ensures r != -1 ==> IsLastTagged(cs, tag, r)
  {
    if cs == [] then -1
    else if tag in cs[|cs| - 1].types then |cs| - 1
    else
      var init := cs[..|cs| - 1];
      assert forall i :: 0 <= i < |init| ==> init[i] == cs[i];
      LastTaggedIndex(init, tag)
  }

  /** What one overwriting pass over the components leaves in `cityName` when it
      started from `null`: the long name of the last component carrying `tag`. */
  function LastTagged(cs: seq<AddressComponent>, tag: string): (r: Option<string>)
    ensures r.None? <==> forall i :: 0 <= i < |cs| ==> tag !in cs[i].types
    ensures r.Some? ==> exists i :: IsLastTagged(cs, tag, i) && cs[i].longName == r.value
  {
    var k := LastTaggedIndex(cs, tag);
    if k == -1 then None else Some(cs[k].longName)
  }

  /** One more step of the pass: a match overwrites, anything else keeps the value. */
  lemma LastTaggedStep(cs: seq<AddressComponent>, i: int, tag: string)
    requires 0 <= i < |cs|
    ensures LastTagged(cs[..i + 1], tag) ==
            if tag in cs[i].types then Some(cs[i].longName) else LastTagged(cs[..i], tag)
  {
    var p := cs[..i + 1];
    assert p[..|p| - 1] == cs[..i];
    assert p[|p| - 1] == cs[i];
  }

  /** The name `extractCityName` returns: `null` exactly when neither tag occurs on any
      component, and otherwise the long name of a component carrying one of the tags. */
  function CityOf(cs: seq<AddressComponent>): (r: Option<string>)
    ensures r.None? <==>
            forall i :: 0 <= i < |cs| ==> Locality !in cs[i].types && AdminAreaLevel2 !in cs[i].types
    ensures r.Some? ==> exists i :: 0 <= i < |cs| && cs[i].longName == r.value &&
                                    (Locality in cs[i].types || AdminAreaLevel2 in cs[i].types)
  {
    var fromLocality := LastTagged(cs, Locality);
    if Truthy(fromLocality) then fromLocality
    else
      match LastTagged(cs, AdminAreaLevel2)
      case Some(n) => Some(n)
      case None => fromLocality
  }

  /** One `forEach` pass of `extractCityName`: `name` starts as `init` and is
      overwritten by the long name of every component carrying `tag`. */
  method TaggedPass(cs: seq<AddressComponent>, tag: string, init: Option<string>) returns (name: Option<string>)
    ensures name == match LastTagged(cs, tag) case Some(n) => Some(n) case None => init
  {
    name := init;
    var i := 0;
    assert cs[..0] == [];
    while i < |cs|
      invariant 0 <= i <= |cs|
      invariant name == match LastTagged(cs[..i], tag) case Some(n) => Some(n) case None => init
    {
      LastTaggedStep(cs, i, tag);
      if tag in cs[i].types {
        name := Some(cs[i].longName);
      }
      i := i + 1;
    }
    assert cs[..|cs|] == cs;
  }

  /** The two passes of `extractCityName`; the second runs only when the first left a
      falsy name. */
  method ExtractCityName(cs: seq<AddressComponent>) returns (cityName: Option<string>)
    ensures cityName == CityOf(cs)
  {
    cityName := TaggedPass(cs, Locality, None);
    if !Truthy(cityName) {
      cityName := TaggedPass(cs, AdminAreaLevel2, cityName);
    }
  }

  /** Only one component can be the last carrying a tag. */
  lemma LastTaggedUnique(cs: seq<AddressComponent>, tag: string, i: int, j: int)
    requires IsLastTagged(cs, tag, i) && IsLastTagged(cs, tag, j)
    ensures i == j
  {
  }

  /** A usable name on the last "locality" component is the result, whatever follows. */
  lemma LocalityWins(cs: seq<AddressComponent>, i: int)
    requires IsLastTagged(cs, Locality, i) && cs[i].longName != ""
    ensures CityOf(cs) == Some(cs[i].longName)
  {
    var r := LastTagged(cs, Locality);
    var k :| IsLastTagged(cs, Locality, k) && cs[k].longName == r.value;
    LastTaggedUnique(cs, Locality, i, k);
  }

  /** With two or more "locality" components, the later one is chosen. */
  lemma LaterLocalityWins(cs: seq<AddressComponent>, i: int, j: int)
    requires 0 <= i < j < |cs| && Locality in cs[i].types
    requires IsLastTagged(cs, Locality, j) && cs[j].longName != ""
    ensures CityOf(cs) == Some(cs[j].longName)
  {
    LocalityWins(cs, j);
  }

  /** Without a usable locality name, the last "administrative_area_level_2" component is the result. */
  lemma AdminAreaFallback(cs: seq<AddressComponent>, i: int)
    requires !Truthy(LastTagged(cs, Locality))
    requires IsLastTagged(cs, AdminAreaLevel2, i)
    ensures CityOf(cs) == Some(cs[i].longName)
  {
    var r := LastTagged(cs, AdminAreaLevel2);
    var k :| IsLastTagged(cs, AdminAreaLevel2, k) && cs[k].longName == r.value;
    LastTaggedUnique(cs, AdminAreaLevel2, i, k);
  }
}
