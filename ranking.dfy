/**
 * The `/api/suggestions` handler of app.py: rows of the base city's state whose
 * livability label is "suitable" (any case), without the base city itself, ranked by a
 * goodness score, best first, top five.
 */
module Ranking {
  import opened Common
  import opened Payloads
  import opened Backend

  /** The goodness column. Computed exactly over the reals; the floating-point rounding
      of the weighted sum is not modelled. */
  function Goodness(r: CityRow): real
  {
    (100.0 - r.aqi) * 0.30 + r.wqi * 0.30 + (100.0 - r.pollution) * 0.25 + r.industryDistance * 0.15
  }

  /** A row with no worse AQI, WQI, pollution and industry distance is at least as good. */
  lemma GoodnessMonotone(a: CityRow, b: CityRow)
    requires a.aqi <= b.aqi && a.wqi >= b.wqi && a.pollution <= b.pollution
    requires a.industryDistance >= b.industryDistance
    ensures Goodness(a) >= Goodness(b)
  {
  }

  const TopCount: nat := 5

  /** A row that survives the three filters for base state `state` and requested `name`. */
  predicate Eligible(row: CityRow, state: string, name: string)
  {
    row.state == state && Lower(row.livabilityLabel) == "suitable" && !SameCity(row, name)
  }

  /** `df_suitable` after the same-city removal, in dataset order. */
  function Candidates(df: seq<CityRow>, state: string, name: string): (r: seq<CityRow>)
    ensures forall row :: row in r <==> row in df && Eligible(row, state, name)
    ensures multiset(r) <= multiset(df)
  {
    if df == [] then []
    else
      var rest := Candidates(df[1..], state, name);
      assert df == [df[0]] + df[1..];
      if Eligible(df[0], state, name) then [df[0]] + rest else rest
  }

  /** Non-increasing goodness. */
  predicate SortedByGoodness(s: seq<CityRow>)
  {
    forall i, j :: 0 <= i < j < |s| ==> Goodness(s[i]) >= Goodness(s[j])
  }

  /** Inserts `x` after every row strictly better than it, so before the rows it ties with. */
  function Insert(x: CityRow, s: seq<CityRow>): (r: seq<CityRow>)
    requires SortedByGoodness(s)
    ensures SortedByGoodness(r)
    ensures forall y :: y in r ==> y == x || y in s
    ensures multiset(r) == multiset(s) + multiset{x}
  {
    if s == [] then [x]
    else if Goodness(s[0]) > Goodness(x) then
      var rest := Insert(x, s[1..]);
      assert s == [s[0]] + s[1..];
      assert forall k :: 0 <= k < |rest| ==> Goodness(rest[k]) <= Goodness(s[0]) by {
        forall k | 0 <= k < |rest| ensures Goodness(rest[k]) <= Goodness(s[0]) {
          assert rest[k] in rest;
        }
      }
      [s[0]] + rest
    else [x] + s
  }

  /** `sort_values("goodness", ascending=False)`, with the stable order (input order)
      among equal scores. */
  function SortByGoodness(s: seq<CityRow>): (r: seq<CityRow>)
    ensures SortedByGoodness(r)
    ensures multiset(r) == multiset(s)
  {
    if s == [] then []
    else
      assert s == [s[0]] + s[1..];
      Insert(s[0], SortByGoodness(s[1..]))
  }

  /** Two rows of equal goodness keep their input order. */
  lemma TiesKeepInputOrder(a: CityRow, b: CityRow)
    requires Goodness(a) == Goodness(b)
    ensures SortByGoodness([a, b]) == [a, b]
  {
    assert [a, b][1..] == [b];
    assert [b][1..] == [];
  }

  /** `.head(5)` of the sorted rows: at most five, best first, drawn from the input. */
  function Top(s: seq<CityRow>): (r: seq<CityRow>)
    ensures |r| == Min(TopCount, |s|)
    ensures SortedByGoodness(r)
    ensures multiset(r) <= multiset(s)
  {
    var sorted := SortByGoodness(s);
    assert |sorted| == |s| by { assert |multiset(sorted)| == |multiset(s)|; }
    if |sorted| <= TopCount then sorted
    else
      var top := sorted[..TopCount];
      assert sorted == top + sorted[TopCount..];
      PrefixDominates(top, sorted[TopCount..]);
      top
  }

  /** The top rows: at most five, best first, drawn from the input, and no row left out
      is better than any row kept. */
  lemma TopIsBest(s: seq<CityRow>)
    ensures |Top(s)| == Min(TopCount, |s|)
    ensures SortedByGoodness(Top(s))
    ensures multiset(Top(s)) <= multiset(s)
    ensures forall x, y :: x in multiset(s) - multiset(Top(s)) && y in Top(s) ==> Goodness(x) <= Goodness(y)
  {
    var sorted := SortByGoodness(s);
    var top := Top(s);
    assert |sorted| == |s| by { assert |multiset(sorted)| == |multiset(s)|; }
    if |sorted| > TopCount {
      var rest := sorted[TopCount..];
      assert sorted == top + rest;
      PrefixDominates(top, rest);
      assert multiset(s) == multiset(top) + multiset(rest);
      assert multiset(s) - multiset(top) == multiset(rest);
    } else {
      assert multiset(s) - multiset(top) == multiset{};
    }
  }

  /** In a sorted list, every row of a prefix is at least as good as every row after it. */
  lemma PrefixDominates(top: seq<CityRow>, rest: seq<CityRow>)
    requires SortedByGoodness(top + rest)
    ensures SortedByGoodness(top)
    ensures forall x, y :: x in multiset(rest) && y in top ==> Goodness(x) <= Goodness(y)
  {
    var all := top + rest;
    forall i, j | 0 <= i < j < |top| ensures Goodness(top[i]) >= Goodness(top[j]) {
      assert all[i] == top[i] && all[j] == top[j];
    }
    forall x, y | x in multiset(rest) && y in top ensures Goodness(x) <= Goodness(y) {
      var i :| 0 <= i < |rest| && rest[i] == x;
      var j :| 0 <= j < |top| && top[j] == y;
      assert all[|top| + i] == x && all[j] == y;
    }
  }

  /** The rows the handler reports for base state `state` and requested `name`. */
  function TopSuggestions(df: seq<CityRow>, state: string, name: string): seq<CityRow>
  {
    Top(Candidates(df, state, name))
  }

  /** Everything promised of a suggestion list: the base state, a "suitable" label in any
      case, never the requested city itself (in any case), taken from the dataset, at
      most five, best first, and every eligible row left out no better than a kept one. */
  lemma SuggestionsAreBest(df: seq<CityRow>, state: string, name: string)
    ensures var top := TopSuggestions(df, state, name);
            |top| <= TopCount &&
            (forall r :: r in top ==> r in df && r.state == state && Lower(r.livabilityLabel) == "suitable" &&
                                      Lower(r.city) != Lower(name)) &&
            SortedByGoodness(top) &&
            (forall x, y :: x in multiset(Candidates(df, state, name)) - multiset(top) && y in top ==>
                              Goodness(x) <= Goodness(y))
  {
    var c := Candidates(df, state, name);
    TopIsBest(c);
    var top := Top(c);
    forall r | r in top ensures r in c {
      assert r in multiset(top);
    }
  }

  function ToSuggestion(r: CityRow): Suggestion
  {
    Suggestion(r.city, r.state, r.aqi, r.wqi, r.pollution, r.industryDistance,
               r.costOfLiving, r.hospitals, r.schools, r.stores)
  }

  /** The `suggestions` array of a reply: the top rows, reshaped, in rank order. */
  function Reported(top: seq<CityRow>): (r: seq<Suggestion>)
    ensures |r| == |top|
    ensures forall i :: 0 <= i < |top| ==> r[i] == ToSuggestion(top[i])
  {
    seq(|top|, i requires 0 <= i < |top| => ToSuggestion(top[i]))
  }

  const CityNotFound: string := "City not found"

  /** The loop of the handler: one `results.append` per top row, in rank order. */
  method CollectResults(top: seq<CityRow>) returns (results: seq<Suggestion>)
    ensures results == Reported(top)
  {
    results := [];
    var i := 0;
    while i < |top|
      invariant 0 <= i <= |top|
      invariant results == Reported(top[..i])
    {
      assert Reported(top[..i + 1]) == Reported(top[..i]) + [ToSuggestion(top[i])];
      results := results + [ToSuggestion(top[i])];
      i := i + 1;
    }
    assert top[..|top|] == top;
  }

  /** The `/api/suggestions` handler. */
  method Suggestions(city: Option<string>, df: seq<CityRow>) returns (reply: Reply<SuggestionsPayload>)
    ensures Missing(city) ==> reply == Reply(400, SuggestionsError(CityRequired))
    ensures !Missing(city) && FirstMatch(df, city.value).None? ==> reply == Reply(404, SuggestionsError(CityNotFound))
    ensures !Missing(city) && FirstMatch(df, city.value).Some? ==>
              var state := df[FirstMatch(df, city.value).value].state;
              reply == Reply(200, SuggestionsOk(city.value, state, Some(Reported(TopSuggestions(df, state, city.value)))))
  {
    if Missing(city) {
      return Reply(400, SuggestionsError(CityRequired));
    }
    var name := city.value;
    var base := FirstMatch(df, name);
    if base.None? {
      return Reply(404, SuggestionsError(CityNotFound));
    }
    var state := df[base.value].state;
    var results := CollectResults(TopSuggestions(df, state, name));
    reply := Reply(200, SuggestionsOk(name, state, Some(results)));
  }
}
