/**
 * Facility grouping in `renderLivability` (static/js/map.js): facilities are bucketed
 * by type into hospital, school and grocery_or_supermarket (other types are dropped),
 * each bucket keeps input order, and the non-empty buckets are emitted in that fixed
 * order as a header followed by one line per facility. No emitted group gives the
 * "No nearby facilities found." placeholder.
 */
module Facilities {
  import opened Common
  import opened Payloads

  datatype FacilityType = Hospital | School | Grocery

  /** The keys of `facilitiesByType`, in their insertion (and so iteration) order. */
  const TypeOrder: seq<FacilityType> := [Hospital, School, Grocery]

  function TypeName(t: FacilityType): string
  {
    match t
    case Hospital => "hospital"
    case School => "school"
    case Grocery => "grocery_or_supermarket"
  }

  function Rank(t: FacilityType): nat
  {
    match t
    case Hospital => 0
    case School => 1
    case Grocery => 2
  }

  /** The bucket a facility's `type` string selects, if any. */
  function TypeOf(kind: string): (r: Option<FacilityType>)
    ensures r.Some? ==> TypeName(r.value) == kind
    ensures r.None? ==> forall t :: TypeName(t) != kind
  {
    if kind == "hospital" then Some(Hospital)
    else if kind == "school" then Some(School)
    else if kind == "grocery_or_supermarket" then Some(Grocery)
    else None
  }

  lemma TypeOfTypeName(t: FacilityType)
    ensures TypeOf(TypeName(t)) == Some(t)
  {
  }

  // ---------------- readable type ----------------

  /** A character matched by the regular-expression class `\w`. */
  predicate IsWordChar(c: char)
  {
    'a' <= c <= 'z' || 'A' <= c <= 'Z' || '0' <= c <= '9' || c == '_'
  }

  /** `.replace(/_/g, " ")` */
  function UnderscoresToSpaces(s: string): string
  {
    seq(|s|, i requires 0 <= i < |s| => if s[i] == '_' then ' ' else s[i])
  }

  /** `.replace(/\b\w/g, (l) => l.toUpperCase())`: every word character that starts a
      word (nothing or a non-word character before it) is upper-cased. */
  function CapitalizeWords(s: string): string
  {
    seq(|s|, i requires 0 <= i < |s| =>
      if IsWordChar(s[i]) && (i == 0 || !IsWordChar(s[i - 1])) then UpperChar(s[i]) else s[i])
  }

  /** Position `i` of the snake_case text `s` starts a word once `_` has become a space. */
  predicate StartsWord(s: string, i: int)
    requires 0 <= i < |s|
  {
    s[i] != '_' && IsWordChar(s[i]) && (i == 0 || s[i - 1] == '_' || !IsWordChar(s[i - 1]))
  }

  /** The group header text for a snake_case type name. */
  function ReadableType(s: string): (r: string)
    ensures |r| == |s|
  {
    CapitalizeWords(UnderscoresToSpaces(s))
  }

  /** Every `_` becomes a space, every word-initial character is upper-cased, and
      nothing else changes. */
  lemma ReadableTypeChars(s: string)
    ensures forall i :: 0 <= i < |s| && s[i] == '_' ==> ReadableType(s)[i] == ' '
    ensures forall i :: 0 <= i < |s| && s[i] != '_' && StartsWord(s, i) ==> ReadableType(s)[i] == UpperChar(s[i])
    ensures forall i :: 0 <= i < |s| && s[i] != '_' && !StartsWord(s, i) ==> ReadableType(s)[i] == s[i]
  {
    var spaced := UnderscoresToSpaces(s);
    var r := ReadableType(s);
    forall i | 0 <= i < |s|
      ensures s[i] == '_' ==> r[i] == ' '
      ensures s[i] != '_' ==> r[i] == if StartsWord(s, i) then UpperChar(s[i]) else s[i]
    {
      assert spaced[i] == if s[i] == '_' then ' ' else s[i];
      assert i > 0 ==> spaced[i - 1] == if s[i - 1] == '_' then ' ' else s[i - 1];
      assert r[i] == if IsWordChar(spaced[i]) && (i == 0 || !IsWordChar(spaced[i - 1])) then UpperChar(spaced[i]) else spaced[i];
    }
  }

  /** Formatting a header a second time changes nothing. */
  lemma ReadableTypeIdempotent(s: string)
    ensures ReadableType(ReadableType(s)) == ReadableType(s)
  {
    var r := ReadableType(s);
    var rr := ReadableType(r);
    ReadableTypeChars(s);
    ReadableTypeChars(r);
    forall i | 0 <= i < |s|
      ensures rr[i] == r[i]
    {
      assert r[i] != '_';
      if StartsWord(r, i) {
        assert StartsWord(s, i) || s[i] == '_' || !IsWordChar(s[i]) by {
          if i > 0 && s[i] != '_' && IsWordChar(s[i]) {
            assert r[i - 1] != '_';
            assert !IsWordChar(r[i - 1]);
            assert s[i - 1] == '_' || !IsWordChar(s[i - 1]);
          }
        }
      }
    }
  }

  /** The three headers the page can show. */
  lemma HospitalTitle()
    ensures ReadableType("hospital") == "Hospital"
  {
    var r := ReadableType("hospital");
    assert StartsWord("hospital", 0);
    assert forall i :: 1 <= i < 8 ==> !StartsWord("hospital", i);
    assert forall i :: 0 <= i < 8 ==> r[i] == "Hospital"[i];
  }

  lemma SchoolTitle()
    ensures ReadableType("school") == "School"
  {
    var r := ReadableType("school");
    assert StartsWord("school", 0);
    assert forall i :: 1 <= i < 6 ==> !StartsWord("school", i);
    assert forall i :: 0 <= i < 6 ==> r[i] == "School"[i];
  }

  /** Words joined by `_` are formatted one by one and joined by a space. */
  lemma ReadableTypeJoin(a: string, b: string)
    ensures ReadableType(a + "_" + b) == ReadableType(a) + " " + ReadableType(b)
  {
    var s := a + "_" + b;
    var r := ReadableType(s);
    var n := |a|;
    ReadableTypeChars(s);
    ReadableTypeChars(a);
    ReadableTypeChars(b);
    var expected := ReadableType(a) + " " + ReadableType(b);
    forall i | 0 <= i < |s|
      ensures r[i] == expected[i]
    {
      if i < n {
        assert s[i] == a[i];
        assert i > 0 ==> s[i - 1] == a[i - 1];
        assert StartsWord(s, i) == StartsWord(a, i);
      } else if i > n {
        var j := i - n - 1;
        assert s[i] == b[j];
        assert j > 0 ==> s[i - 1] == b[j - 1];
        assert j == 0 ==> s[i - 1] == '_';
        assert StartsWord(s, i) == StartsWord(b, j);
      }
    }
  }

  lemma GroceryWord()
    ensures ReadableType("grocery") == "Grocery"
  {
    var r := ReadableType("grocery");
    assert StartsWord("grocery", 0);
    assert forall i :: 1 <= i < 7 ==> !StartsWord("grocery", i);
    assert forall i :: 0 <= i < 7 ==> r[i] == "Grocery"[i];
  }

  lemma OrWord()
    ensures ReadableType("or") == "Or"
  {
    var r := ReadableType("or");
    assert StartsWord("or", 0);
    assert forall i :: 1 <= i < 2 ==> !StartsWord("or", i);
    assert forall i :: 0 <= i < 2 ==> r[i] == "Or"[i];
  }

  lemma SupermarketWord()
    ensures ReadableType("supermarket") == "Supermarket"
  {
    var r := ReadableType("supermarket");
    assert StartsWord("supermarket", 0);
    assert forall i :: 1 <= i < 11 ==> !StartsWord("supermarket", i);
    assert forall i :: 0 <= i < 11 ==> r[i] == "Supermarket"[i];
  }

  lemma GroceryTitle()
    ensures ReadableType("grocery_or_supermarket") == "Grocery Or Supermarket"
  {
    var g, o, m := "grocery", "or", "supermarket";
    var go := g + "_" + o;
    ReadableTypeJoin(g, o);
    GroceryWord();
    OrWord();
    assert ReadableType(go) == "Grocery Or" by {
      assert "Grocery" + " " + "Or" == "Grocery Or";
    }
    ReadableTypeJoin(go, m);
    SupermarketWord();
    assert go + "_" + m == "grocery_or_supermarket";
    assert "Grocery Or" + " " + "Supermarket" == "Grocery Or Supermarket";
  }

  function Title(t: FacilityType): string
  {
    ReadableType(TypeName(t))
  }

  /** Different groups have different headers. */
  lemma TitleInjective(t: FacilityType, u: FacilityType)
    requires Title(t) == Title(u)
    ensures t == u
  {
    assert |Title(t)| == |TypeName(t)| && |Title(u)| == |TypeName(u)|;
  }

  // ---------------- bucketing ----------------

  /** The facilities in bucket `t`, in input order: what `facilitiesByType[t]` holds. */
  function Bucket(fs: seq<Facility>, t: FacilityType): (r: seq<Facility>)
    ensures |r| <= |fs|
    ensures forall f :: f in r ==> f in fs && TypeOf(f.kind) == Some(t)
  {
    if fs == [] then []
    else
      var last := fs[|fs| - 1];
      var prefix := Bucket(fs[..|fs| - 1], t);
      prefix + (if TypeOf(last.kind) == Some(t) then [last] else [])
  }

  /** Bucketing distributes over concatenation: it keeps the input order. */
  lemma {:induction false} BucketAppend(a: seq<Facility>, b: seq<Facility>, t: FacilityType)
    ensures Bucket(a + b, t) == Bucket(a, t) + Bucket(b, t)
  {
    if b == [] {
      assert a + b == a;
    } else {
      var b' := b[..|b| - 1];
      assert (a + b)[..|a + b| - 1] == a + b';
      BucketAppend(a, b', t);
    }
  }

  /** Every facility of bucket type `t` lands in bucket `t`. */
  lemma {:induction false} BucketComplete(fs: seq<Facility>, t: FacilityType, f: Facility)
    requires f in fs && TypeOf(f.kind) == Some(t)
    ensures f in Bucket(fs, t)
  {
    if fs[|fs| - 1] != f {
      assert f in fs[..|fs| - 1];
      BucketComplete(fs[..|fs| - 1], t, f);
    }
  }

  /** The facilities with a recognised type, in input order. */
  function Recognised(fs: seq<Facility>): (r: seq<Facility>)
    ensures forall f :: f in r ==> f in fs && TypeOf(f.kind).Some?
  {
    if fs == [] then []
    else
      var last := fs[|fs| - 1];
      Recognised(fs[..|fs| - 1]) + (if TypeOf(last.kind).Some? then [last] else [])
  }

  /** The three buckets together hold exactly the recognised facilities. */
  lemma {:induction false} BucketSizes(fs: seq<Facility>)
    ensures |Bucket(fs, Hospital)| + |Bucket(fs, School)| + |Bucket(fs, Grocery)| == |Recognised(fs)|
  {
    if fs != [] {
      BucketSizes(fs[..|fs| - 1]);
    }
  }

  // ---------------- rendering ----------------

  /** One `<li>` of the facilities list. */
  datatype FacilityEntry =
    | GroupHeader(title: string)
    | FacilityLine(name: Option<string>, vicinity: Option<string>, distanceM: int)
    | NoNearbyFacilities  // "No nearby facilities found."
    | NoFacilitiesData  // "No facilities data."

  function Line(f: Facility): FacilityEntry
  {
    FacilityLine(f.name, f.vicinity, f.distanceM)
  }

  function Lines(fs: seq<Facility>): (r: seq<FacilityEntry>)
    ensures |r| == |fs|
    ensures forall i :: 0 <= i < |fs| ==> r[i] == Line(fs[i])
  {
    seq(|fs|, i requires 0 <= i < |fs| => Line(fs[i]))
  }

  /** The entries one group contributes: none when its bucket is empty. */
  function Group(fs: seq<Facility>, t: FacilityType): seq<FacilityEntry>
  {
    GroupOf(t, Bucket(fs, t))
  }

  /** The entries of a group of type `t` holding `places`. */
  function GroupOf(t: FacilityType, places: seq<Facility>): seq<FacilityEntry>
  {
    if places == [] then [] else [GroupHeader(Title(t))] + Lines(places)
  }

  /** The groups of the first `k` types of `TypeOrder`, in that order. */
  function GroupsBefore(fs: seq<Facility>, k: int): seq<FacilityEntry>
    requires 0 <= k <= |TypeOrder|
  {
    if k == 0 then [] else GroupsBefore(fs, k - 1) + Group(fs, TypeOrder[k - 1])
  }

  /** The entries `renderLivability` puts into the facilities list: never empty, and
      either the placeholder alone or a list that opens with a group header. */
  function RenderFacilities(fs: seq<Facility>): (r: seq<FacilityEntry>)
    ensures r != []
    ensures r == [NoNearbyFacilities] || r[0].GroupHeader?
  {
    var g := GroupsBefore(fs, |TypeOrder|);
    GroupsInOrder(fs);
    GroupSize(fs, Hospital);
    GroupSize(fs, School);
    GroupSize(fs, Grocery);
    if g == [] then [NoNearbyFacilities]
    else
      assert g[0].GroupHeader? by {
        if Group(fs, Hospital) != [] { assert g[0] == Group(fs, Hospital)[0]; }
        else if Group(fs, School) != [] { assert g[0] == Group(fs, School)[0]; }
        else { assert g[0] == Group(fs, Grocery)[0]; }
      }
      g
  }

  lemma GroupsInOrder(fs: seq<Facility>)
    ensures GroupsBefore(fs, |TypeOrder|) == Group(fs, Hospital) + Group(fs, School) + Group(fs, Grocery)
  {
    var gh, gs := Group(fs, Hospital), Group(fs, School);
    assert GroupsBefore(fs, 1) == gh;
    assert GroupsBefore(fs, 2) == gh + gs;
  }

  /** One more facility joins the bucket its type selects, and no other. */
  lemma BucketStep(fs: seq<Facility>, i: int, t: FacilityType)
    requires 0 <= i < |fs|
    ensures Bucket(fs[..i + 1], t) == Bucket(fs[..i], t) + (if TypeOf(fs[i].kind) == Some(t) then [fs[i]] else [])
  {
    assert fs[..i + 1][..i] == fs[..i];
  }

  /** The three buckets hold exactly the recognised facilities of a prefix. */
  predicate BucketsOf(byType: map<FacilityType, seq<Facility>>, prefix: seq<Facility>)
  {
    Hospital in byType && School in byType && Grocery in byType &&
    byType[Hospital] == Bucket(prefix, Hospital) &&
    byType[School] == Bucket(prefix, School) &&
    byType[Grocery] == Bucket(prefix, Grocery)
  }

  /** One step of the first pass: the facility at `i` joins the bucket of its type. */
  method AddFacility(byType: map<FacilityType, seq<Facility>>, fs: seq<Facility>, i: nat)
    returns (next: map<FacilityType, seq<Facility>>)
    requires i < |fs| && BucketsOf(byType, fs[..i])
    ensures BucketsOf(next, fs[..i + 1])
  {
    BucketStep(fs, i, Hospital);
    BucketStep(fs, i, School);
    BucketStep(fs, i, Grocery);
    var t := TypeOf(fs[i].kind);
    next := byType;
    if t.Some? {
      next := byType[t.value := byType[t.value] + [fs[i]]];
    }
  }

  /** The first loop of the grouping: each facility is pushed onto the array its
      type selects in `facilitiesByType`; other types are skipped. */
  method BucketByType(fs: seq<Facility>) returns (byType: map<FacilityType, seq<Facility>>)
    ensures forall t :: t in byType && byType[t] == Bucket(fs, t)
  {
    byType := map[Hospital := [], School := [], Grocery := []];
    assert fs[..0] == [];
    var i := 0;
    while i < |fs|
      invariant 0 <= i <= |fs|
      invariant BucketsOf(byType, fs[..i])
    {
      byType := AddFacility(byType, fs, i);
      i := i + 1;
    }
    assert fs[..|fs|] == fs;
    forall t ensures t in byType && byType[t] == Bucket(fs, t) {
      match t
      case Hospital =>
      case School =>
      case Grocery =>
    }
  }


  /** The inner loop of the second pass: one line per facility of a bucket. */
  method AppendLines(entries: seq<FacilityEntry>, places: seq<Facility>) returns (out: seq<FacilityEntry>)
    ensures out == entries + Lines(places)
  {
    out := entries;
    var j := 0;
    while j < |places|
      invariant 0 <= j <= |places|
      invariant out == entries + Lines(places[..j])
    {
      assert Lines(places[..j + 1]) == Lines(places[..j]) + [Line(places[j])];
      out := out + [Line(places[j])];
      j := j + 1;
    }
    assert places[..|places|] == places;
  }

  /** The loop body of the second pass: the header and lines of bucket `t`, if any. */
  method EmitGroup(entries: seq<FacilityEntry>, places: seq<Facility>, t: FacilityType)
    returns (out: seq<FacilityEntry>)
    ensures out == entries + GroupOf(t, places)
  {
    out := entries;
    if |places| > 0 {
      var header := [GroupHeader(Title(t))];
      out := AppendLines(entries + header, places);
      assert out == entries + (header + Lines(places));
    }
  }


  /** The grouping in `renderLivability`: bucketing, then a header and the lines of
      each non-empty bucket in key order, then the placeholder if nothing was emitted. */
  method GroupFacilities(fs: seq<Facility>) returns (entries: seq<FacilityEntry>)
    ensures entries == RenderFacilities(fs)
  {
    var byType := BucketByType(fs);
    entries := [];
    var k := 0;
    while k < |TypeOrder|
      invariant 0 <= k <= |TypeOrder|
      invariant entries == GroupsBefore(fs, k)
    {
      var t := TypeOrder[k];
      entries := EmitGroup(entries, byType[t], t);
      k := k + 1;
    }
    if entries == [] {
      entries := [NoNearbyFacilities];
    }
  }

  // ---------------- properties of the rendered list ----------------

  /** The number of groups that emit a header. */
  function NonEmptyGroups(fs: seq<Facility>): nat
  {
    (if Bucket(fs, Hospital) != [] then 1 else 0) +
    (if Bucket(fs, School) != [] then 1 else 0) +
    (if Bucket(fs, Grocery) != [] then 1 else 0)
  }

  /** The placeholder appears exactly when no facility has a recognised type; otherwise
      there is one entry per recognised facility plus one header per non-empty group. */
  lemma RenderedSize(fs: seq<Facility>)
    ensures RenderFacilities(fs) == [NoNearbyFacilities] <==> Recognised(fs) == []
    ensures Recognised(fs) != [] ==> |RenderFacilities(fs)| == |Recognised(fs)| + NonEmptyGroups(fs)
  {
    GroupsInOrder(fs);
    BucketSizes(fs);
    GroupSize(fs, Hospital);
    GroupSize(fs, School);
    GroupSize(fs, Grocery);
  }

  lemma GroupSize(fs: seq<Facility>, t: FacilityType)
    ensures |Group(fs, t)| == if Bucket(fs, t) == [] then 0 else 1 + |Bucket(fs, t)|
    ensures Group(fs, t) != [] ==> Group(fs, t)[0] == GroupHeader(Title(t))
  {
  }

  /** Reads the rendered list back: the lines that follow a header equal to `title`,
      up to the next header (`inside` says whether such a header was just passed). */
  function Collect(es: seq<FacilityEntry>, title: string, inside: bool): seq<FacilityEntry>
  {
    if es == [] then []
    else
      match es[0]
      case GroupHeader(h) => Collect(es[1..], title, h == title)
      case FacilityLine(_, _, _) => (if inside then [es[0]] else []) + Collect(es[1..], title, inside)
      case _ => Collect(es[1..], title, inside)
  }

  /** The lines listed under the header `title`. */
  function LinesUnder(es: seq<FacilityEntry>, title: string): seq<FacilityEntry>
  {
    Collect(es, title, false)
  }

  lemma {:induction false} CollectLines(fs: seq<Facility>, title: string, inside: bool)
    ensures Collect(Lines(fs), title, inside) == if inside then Lines(fs) else []
  {
    if fs != [] {
      assert Lines(fs)[1..] == Lines(fs[1..]);
      CollectLines(fs[1..], title, inside);
    }
  }

  lemma {:induction false} CollectAppend(a: seq<FacilityEntry>, b: seq<FacilityEntry>, title: string, inside: bool)
    requires b == [] || b[0].GroupHeader?
    ensures Collect(a + b, title, inside) == Collect(a, title, inside) + Collect(b, title, false)
  {
    if a == [] {
      assert a + b == b;
    } else {
      assert (a + b)[0] == a[0] && (a + b)[1..] == a[1..] + b;
      match a[0]
      case GroupHeader(h) => CollectAppend(a[1..], b, title, h == title);
      case FacilityLine(_, _, _) => CollectAppend(a[1..], b, title, inside);
      case NoNearbyFacilities => CollectAppend(a[1..], b, title, inside);
      case NoFacilitiesData => CollectAppend(a[1..], b, title, inside);
    }
  }

  lemma CollectGroup(fs: seq<Facility>, u: FacilityType, t: FacilityType)
    ensures Collect(Group(fs, u), Title(t), false) == if u == t then Lines(Bucket(fs, t)) else []
  {
    var b := Bucket(fs, u);
    if b != [] {
      var g := Group(fs, u);
      assert g[0] == GroupHeader(Title(u)) && g[1..] == Lines(b);
      if Title(u) == Title(t) {
        TitleInjective(u, t);
      }
      CollectLines(b, Title(t), Title(u) == Title(t));
    }
  }

  /** Reading back three groups is reading back each of them. */
  lemma CollectThree(a: seq<FacilityEntry>, b: seq<FacilityEntry>, c: seq<FacilityEntry>, title: string)
    requires b == [] || b[0].GroupHeader?
    requires c == [] || c[0].GroupHeader?
    ensures Collect(a + b + c, title, false) ==
            Collect(a, title, false) + Collect(b, title, false) + Collect(c, title, false)
  {
    CollectAppend(a + b, c, title, false);
    CollectAppend(a, b, title, false);
  }

  /** Round trip: reading back the lines under a group's header recovers exactly that
      group's facilities, in input order. So each group holds only its own type, keeps
      the input order, and no group's facilities leak into another's. */
  lemma RegroupRendered(fs: seq<Facility>, t: FacilityType)
    ensures LinesUnder(RenderFacilities(fs), Title(t)) == Lines(Bucket(fs, t))
  {
    GroupsInOrder(fs);
    var gh, gs, gg := Group(fs, Hospital), Group(fs, School), Group(fs, Grocery);
    var title := Title(t);
    CollectGroup(fs, Hospital, t);
    CollectGroup(fs, School, t);
    CollectGroup(fs, Grocery, t);
    if gh + gs + gg == [] {
      assert Collect([NoNearbyFacilities], title, false) == [];
    } else {
      GroupSize(fs, School);
      GroupSize(fs, Grocery);
      CollectThree(gh, gs, gg, title);
    }
  }

  /** A group's header is shown exactly when its bucket is non-empty: empty groups
      produce no header. */
  lemma HeaderIffNonEmpty(fs: seq<Facility>, t: FacilityType)
    ensures GroupHeader(Title(t)) in RenderFacilities(fs) <==> Bucket(fs, t) != []
  {
    if Bucket(fs, t) == [] {
      HeaderAbsent(fs, t);
    } else {
      HeaderShown(fs, t);
    }
  }

  lemma HeaderAbsent(fs: seq<Facility>, t: FacilityType)
    requires Bucket(fs, t) == []
    ensures GroupHeader(Title(t)) !in RenderFacilities(fs)
  {
    GroupsInOrder(fs);
    var r := RenderFacilities(fs);
    if GroupHeader(Title(t)) in r {
      var g := GroupsBefore(fs, |TypeOrder|);
      assert r == g;
      var i :| 0 <= i < |g| && g[i] == GroupHeader(Title(t));
      var v := SegmentType(fs, i);
      TitleInjective(t, v);
      GroupSize(fs, t);
    }
  }

  lemma HeaderShown(fs: seq<Facility>, t: FacilityType)
    requires Bucket(fs, t) != []
    ensures GroupHeader(Title(t)) in RenderFacilities(fs)
  {
    GroupsInOrder(fs);
    GroupSize(fs, t);
    var gh, gs, gg := Group(fs, Hospital), Group(fs, School), Group(fs, Grocery);
    var g := gh + gs + gg;
    assert Group(fs, t) != [] && RenderFacilities(fs) == g;
    match t
    case Hospital => assert g[0] == gh[0];
    case School => assert g[|gh|] == gs[0];
    case Grocery => assert g[|gh| + |gs|] == gg[0];
  }

  /** Inside a group, only the first entry is a header, and it names the group. */
  lemma GroupHeaderAt(fs: seq<Facility>, t: FacilityType, k: int)
    requires 0 <= k < |Group(fs, t)| && Group(fs, t)[k].GroupHeader?
    ensures k == 0 && Group(fs, t)[k] == GroupHeader(Title(t))
  {
  }

  /** Headers appear in the fixed order hospital, school, grocery_or_supermarket. */
  lemma HeaderOrder(fs: seq<Facility>, i: int, j: int, t: FacilityType, u: FacilityType)
    requires 0 <= i < j < |RenderFacilities(fs)|
    requires RenderFacilities(fs)[i] == GroupHeader(Title(t))
    requires RenderFacilities(fs)[j] == GroupHeader(Title(u))
    ensures Rank(t) < Rank(u)
  {
    GroupsInOrder(fs);
    var gh, gs, gg := Group(fs, Hospital), Group(fs, School), Group(fs, Grocery);
    var r := gh + gs + gg;
    assert RenderFacilities(fs) == r;
    var ti := SegmentType(fs, i);
    var tj := SegmentType(fs, j);
    TitleInjective(t, ti);
    TitleInjective(u, tj);
  }

  /** The group whose entries cover position `i` of the rendered list, when that
      position holds a header; the header sits at the start of that group. */
  lemma SegmentType(fs: seq<Facility>, i: int) returns (v: FacilityType)
    requires GroupsBefore(fs, |TypeOrder|) == Group(fs, Hospital) + Group(fs, School) + Group(fs, Grocery)
    requires 0 <= i < |GroupsBefore(fs, |TypeOrder|)| && GroupsBefore(fs, |TypeOrder|)[i].GroupHeader?
    ensures GroupsBefore(fs, |TypeOrder|)[i] == GroupHeader(Title(v))
    ensures v == Hospital ==> i == 0
    ensures v == School ==> i == |Group(fs, Hospital)|
    ensures v == Grocery ==> i == |Group(fs, Hospital)| + |Group(fs, School)|
    ensures v != Hospital ==> Group(fs, Hospital) == [] || i > 0
  {
    var gh, gs, gg := Group(fs, Hospital), Group(fs, School), Group(fs, Grocery);
    var r := gh + gs + gg;
    if i < |gh| {
      assert r[i] == gh[i];
      GroupHeaderAt(fs, Hospital, i);
      v := Hospital;
    } else if i < |gh| + |gs| {
      assert r[i] == gs[i - |gh|];
      GroupHeaderAt(fs, School, i - |gh|);
      v := School;
    } else {
      assert r[i] == gg[i - |gh| - |gs|];
      GroupHeaderAt(fs, Grocery, i - |gh| - |gs|);
      v := Grocery;
    }
  }

  /** A line inside a group is the line of a facility of that group's bucket. */
  lemma GroupLineSource(fs: seq<Facility>, t: FacilityType, m: int) returns (f: Facility)
    requires 0 <= m < |Group(fs, t)| && Group(fs, t)[m].FacilityLine?
    ensures f in fs && TypeOf(f.kind).Some? && Group(fs, t)[m] == Line(f)
  {
    var b := Bucket(fs, t);
    var g := Group(fs, t);
    var ls := Lines(b);
    assert b != [] && g == [GroupHeader(Title(t))] + ls;
    assert 0 < m && g[m] == ls[m - 1];
    f := b[m - 1];
    assert f in b;
  }

  /** An index into three concatenated sequences lands in exactly one of them. */
  lemma Segment3<T>(a: seq<T>, b: seq<T>, c: seq<T>, k: int)
    requires 0 <= k < |a| + |b| + |c|
    ensures (a + b + c)[k] == if k < |a| then a[k] else if k < |a| + |b| then b[k - |a|] else c[k - |a| - |b|]
  {
  }

  /** Every facility line comes from an input facility with a recognised type. */
  lemma LinesAreRecognised(fs: seq<Facility>, k: int)
    requires 0 <= k < |RenderFacilities(fs)| && RenderFacilities(fs)[k].FacilityLine?
    ensures exists f :: f in fs && TypeOf(f.kind).Some? && RenderFacilities(fs)[k] == Line(f)
  {
    var g := GroupsBefore(fs, |TypeOrder|);
    var gh, gs, gg := Group(fs, Hospital), Group(fs, School), Group(fs, Grocery);
    GroupsInOrder(fs);
    assert RenderFacilities(fs) == g;
    Segment3(gh, gs, gg, k);
    var f: Facility;
    if k < |gh| {
      f := GroupLineSource(fs, Hospital, k);
    } else if k < |gh| + |gs| {
      f := GroupLineSource(fs, School, k - |gh|);
    } else {
      f := GroupLineSource(fs, Grocery, k - |gh| - |gs|);
    }
  }
}
