/** The location-search overlay (components/SearchOverlay.tsx): the suggestion list `fetchSuggestions`
    composes from fixed defaults, a case-insensitive filter over a fixed table and an ordering by
    distance, and the icon per suggestion kind. Distances are opaque: the caller supplies the
    distance function, and the device's permission answer and position are parameters. */
module Search {
  import opened Wrappers
  import opened Strings
  import opened Geo

  /** One row of the list: the fixed tables carry an address and coordinates, "Current Location"
      neither; `distance` is only attached to search results. */
  datatype Suggestion = Suggestion(
    title: string, kind: string, address: Option<string>, coordinates: Option<Coordinates>,
    distance: Option<real>)

  function Place(title: string, kind: string, address: string, lat: real, lon: real): Suggestion {
    Suggestion(title, kind, Some(address), Some(Coordinates(lat, lon)), None)
  }

  /** `LOCATIONS_DB`. */
  const LocationsDb: seq<Suggestion> := [
    Place("Indiranagar", "location", "Indiranagar, Bengaluru, Karnataka 560038", 12.9719, 77.6412),
    Place("Koramangala", "location", "Koramangala, Bengaluru, Karnataka 560034", 12.9279, 77.6271),
    Place("HSR Layout", "location", "HSR Layout, Bengaluru, Karnataka 560102", 12.9081, 77.6476),
    Place("Whitefield", "location", "Whitefield, Bengaluru, Karnataka 560066", 12.9698, 77.7499),
    Place("Electronic City", "location", "Electronic City, Bengaluru, Karnataka 560100", 12.8399, 77.6770),
    Place("MG Road", "location", "MG Road, Bengaluru, Karnataka 560001", 12.9756, 77.6097),
    Place("Jayanagar", "location", "Jayanagar, Bengaluru, Karnataka 560011", 12.9250, 77.5938),
    Place("JP Nagar", "location", "JP Nagar, Bengaluru, Karnataka 560078", 12.9077, 77.5851)
  ]

  /** `SAVED_LOCATIONS`. */
  const SavedLocations: seq<Suggestion> := [
    Place("Home", "saved", "123 Main St, Indiranagar, Bangalore", 12.9719, 77.6412),
    Place("Office", "saved", "456 Work Ave, Koramangala, Bangalore", 12.9279, 77.6271)
  ]

  /** `RECENT_LOCATIONS`. */
  const RecentLocations: seq<Suggestion> := [
    Place("MG Road Mall", "recent", "MG Road, Bangalore", 12.9756, 77.6097),
    Place("Central Park", "recent", "JP Nagar, Bangalore", 12.9077, 77.5851)
  ]

  const CurrentLocation := Suggestion("Current Location", "current", None, None, None)

  /** `defaultSuggestions`: "Current Location", then the saved places. */
  const Defaults: seq<Suggestion> := [CurrentLocation] + SavedLocations

  /** The filter predicate: the lowercased title or address contains the lowercased query. */
  predicate MatchesQuery(s: Suggestion, query: string) {
    Includes(Lower(s.title), Lower(query))
    || (s.address.Some? && Includes(Lower(s.address.value), Lower(query)))
  }

  /** `LOCATIONS_DB.filter(...)`: the matching rows, in table order. */
  function Filter(db: seq<Suggestion>, query: string): (r: seq<Suggestion>)
    ensures |r| <= |db|
    ensures forall s :: s in r <==> s in db && MatchesQuery(s, query)
  {
    if db == [] then []
    else (if MatchesQuery(db[0], query) then [db[0]] else []) + Filter(db[1..], query)
  }

  /** A single row is kept exactly when it matches. */
  lemma FilterOne(x: Suggestion, query: string)
    ensures Filter([x], query) == if MatchesQuery(x, query) then [x] else []
  {
    assert [x][1..] == [];
  }

  /** The filter distributes over concatenation: the kept rows stay in table order. */
  lemma {:induction false} FilterAppend(a: seq<Suggestion>, b: seq<Suggestion>, query: string)
    ensures Filter(a + b, query) == Filter(a, query) + Filter(b, query)
  {
    if a == [] {
      assert a + b == b;
    } else {
      assert (a + b)[0] == a[0];
      assert (a + b)[1..] == a[1..] + b;
      FilterAppend(a[1..], b, query);
    }
  }

  /** The search ignores the case of the query. */
  lemma FilterIgnoresCase(db: seq<Suggestion>, query: string)
    ensures Filter(db, Lower(query)) == Filter(db, query)
  {
    LowerIdempotent(query);
  }

  /** Where the device is, if the permission request answers "granted" and the position call
      succeeds; `None` (no distances) otherwise, including when either call threw. */
  function DeviceLocation(permission: Option<string>, position: Option<Coordinates>): (r: Option<Coordinates>)
    ensures r.Some? <==> permission == Some("granted") && position.Some?
  {
    if permission == Some("granted") then position else None
  }

  /** The `map` that attaches `distance` to each result when both ends are known. */
  function Annotate(rs: seq<Suggestion>, here: Option<Coordinates>, dist: (Coordinates, Coordinates) -> real)
    : (r: seq<Suggestion>)
    ensures |r| == |rs|
    ensures forall i :: 0 <= i < |rs| ==>
      r[i] == (if here.Some? && rs[i].coordinates.Some?
               then rs[i].(distance := Some(dist(here.value, rs[i].coordinates.value)))
               else rs[i])
  {
    if rs == [] then []
    else
      var x := rs[0];
      [if here.Some? && x.coordinates.Some? then x.(distance := Some(dist(here.value, x.coordinates.value))) else x]
      + Annotate(rs[1..], here, dist)
  }

  /** `a.distance` is truthy: present and not zero. */
  predicate HasDistance(s: Suggestion) {
    s.distance.Some? && s.distance.value != 0.0
  }

  function Key(s: Suggestion): real {
    if s.distance.Some? then s.distance.value else 0.0
  }

  /** The comparator handed to `sort`: by distance when both sides have one, else "equal". */
  function Compare(a: Suggestion, b: Suggestion): real {
    if HasDistance(a) && HasDistance(b) then a.distance.value - b.distance.value else 0.0
  }

  /** Places `x` in front of the first element it does not compare after. */
  function Insert(x: Suggestion, s: seq<Suggestion>): seq<Suggestion> {
    if s == [] || Compare(x, s[0]) <= 0.0 then [x] + s
    else [s[0]] + Insert(x, s[1..])
  }

  /** `resultsWithDistance.sort(compare)`, as a stable insertion sort. */
  function SortByDistance(xs: seq<Suggestion>): seq<Suggestion> {
    if xs == [] then [] else Insert(xs[0], SortByDistance(xs[1..]))
  }

  predicate Sorted(s: seq<Suggestion>) {
    forall i, j :: 0 <= i < j < |s| ==> Key(s[i]) <= Key(s[j])
  }

  predicate AllMeasured(s: seq<Suggestion>) {
    forall y :: y in s ==> HasDistance(y)
  }

  lemma {:induction false} InsertPermutes(x: Suggestion, s: seq<Suggestion>)
    ensures multiset(Insert(x, s)) == multiset([x] + s)
  {
    if s != [] && Compare(x, s[0]) > 0.0 {
      InsertPermutes(x, s[1..]);
      assert s == [s[0]] + s[1..];
    }
  }

  /** Sorting only reorders the results. */
  lemma {:induction false} SortPermutes(xs: seq<Suggestion>)
    ensures multiset(SortByDistance(xs)) == multiset(xs)
  {
    if xs != [] {
      SortPermutes(xs[1..]);
      InsertPermutes(xs[0], SortByDistance(xs[1..]));
      assert xs == [xs[0]] + xs[1..];
    }
  }

  lemma {:induction false} InsertSorted(x: Suggestion, s: seq<Suggestion>)
    requires HasDistance(x) && AllMeasured(s) && Sorted(s)
    ensures Sorted(Insert(x, s))
  {
    if s != [] && Compare(x, s[0]) > 0.0 {
      var t := Insert(x, s[1..]);
      InsertSorted(x, s[1..]);
      InsertPermutes(x, s[1..]);
      forall k | 0 <= k < |t| ensures Key(s[0]) <= Key(t[k]) {
        assert t[k] in multiset(t);
        assert t[k] in multiset([x] + s[1..]);
        if t[k] != x {
          assert t[k] in s[1..];
          var j :| 0 <= j < |s[1..]| && s[1..][j] == t[k];
          assert s[j + 1] == t[k];
        }
      }
    }
  }

  /** When every result has a non-zero distance, the sorted list is ordered by distance. */
  lemma {:induction false} SortSorts(xs: seq<Suggestion>)
    requires AllMeasured(xs)
    ensures Sorted(SortByDistance(xs))
  {
    if xs != [] {
      var s := SortByDistance(xs[1..]);
      SortSorts(xs[1..]);
      SortPermutes(xs[1..]);
      forall y | y in s ensures HasDistance(y) {
        assert y in multiset(s);
      }
      InsertSorted(xs[0], s);
    }
  }

  /** With no distances the comparator always answers "equal", so the table order is kept. */
  lemma {:induction false} SortKeepsUnmeasured(xs: seq<Suggestion>)
    requires forall i :: 0 <= i < |xs| ==> !HasDistance(xs[i])
    ensures SortByDistance(xs) == xs
  {
    if xs != [] {
      SortKeepsUnmeasured(xs[1..]);
      assert xs == [xs[0]] + xs[1..];
    }
  }

  /** The list `fetchSuggestions` sets when nothing throws: for a blank query the defaults and the
      recent places; otherwise the defaults and the sorted, annotated search results. */
  function Suggestions(query: string, here: Option<Coordinates>, dist: (Coordinates, Coordinates) -> real)
    : seq<Suggestion>
  {
    if IsBlank(query) then Defaults + RecentLocations
    else Defaults + SortByDistance(Annotate(Filter(LocationsDb, query), here, dist))
  }

  /** The composition: defaults first, then either the recent places or a reordering of exactly the
      matching table rows (with their distances attached). */
  lemma SuggestionsSpec(query: string, here: Option<Coordinates>, dist: (Coordinates, Coordinates) -> real)
    ensures var r := Suggestions(query, here, dist);
      |r| >= 3 && r[..3] == Defaults && r[0] == CurrentLocation
      && (IsBlank(query) ==> r[3..] == RecentLocations)
      && (!IsBlank(query) ==>
            multiset(r[3..]) == multiset(Annotate(Filter(LocationsDb, query), here, dist)))
  {
    var r := Suggestions(query, here, dist);
    if !IsBlank(query) {
      SortPermutes(Annotate(Filter(LocationsDb, query), here, dist));
      assert r[3..] == SortByDistance(Annotate(Filter(LocationsDb, query), here, dist));
    } else {
      assert r[3..] == RecentLocations;
    }
  }

  /** Every table row has coordinates and no distance yet. */
  lemma TableRows()
    ensures forall s :: s in LocationsDb ==> s.coordinates.Some? && s.distance.None?
  {
  }

  /** Without the device location nothing is measured, so the search results keep table order. */
  lemma UnlocatedKeepsOrder(query: string, dist: (Coordinates, Coordinates) -> real)
    requires !IsBlank(query)
    ensures Suggestions(query, None, dist) == Defaults + Filter(LocationsDb, query)
  {
    var rs := Filter(LocationsDb, query);
    assert Annotate(rs, None, dist) == rs;
    TableRows();
    forall i | 0 <= i < |rs| ensures !HasDistance(rs[i]) {
      assert rs[i] in LocationsDb;
    }
    SortKeepsUnmeasured(rs);
  }

  /** With the device location and no result at distance zero, the results come nearest first. */
  lemma LocatedSortsByDistance(query: string, here: Coordinates, dist: (Coordinates, Coordinates) -> real)
    requires !IsBlank(query)
    requires forall s :: s in LocationsDb && s.coordinates.Some? ==> dist(here, s.coordinates.value) != 0.0
    ensures Sorted(Suggestions(query, Some(here), dist)[3..])
  {
    var rs := Filter(LocationsDb, query);
    var an := Annotate(rs, Some(here), dist);
    TableRows();
    forall y | y in an ensures HasDistance(y) {
      var i :| 0 <= i < |an| && an[i] == y;
      assert rs[i] in LocationsDb;
    }
    SortSorts(an);
    assert Suggestions(query, Some(here), dist)[3..] == SortByDistance(an);
  }

  /** The icons the list draws. */
  datatype Icon = MapPin | HomeIcon | Clock | Building2

  /** `getIcon`: fixed icons for the four kinds, the map pin for anything else. */
  function GetIcon(kind: string): (r: Icon)
    ensures r == HomeIcon <==> kind == "saved"
    ensures r == Clock <==> kind == "recent"
    ensures r == Building2 <==> kind == "location"
    ensures r == MapPin <==> kind != "saved" && kind != "recent" && kind != "location"
  {
    match kind
    case "current" => MapPin
    case "saved" => HomeIcon
    case "recent" => Clock
    case "location" => Building2
    case _ => MapPin
  }

  /** Every suggestion the overlay can list gets the icon of the list it came from. */
  lemma IconsOfLists()
    ensures GetIcon(CurrentLocation.kind) == MapPin
    ensures forall s :: s in SavedLocations ==> GetIcon(s.kind) == HomeIcon
    ensures forall s :: s in RecentLocations ==> GetIcon(s.kind) == Clock
    ensures forall s :: s in LocationsDb ==> GetIcon(s.kind) == Building2
  {
  }

  class SearchOverlay {
    var suggestions: seq<Suggestion>
    var isLoading: bool

    constructor ()
      ensures suggestions == [] && !isLoading
    {
      suggestions, isLoading := [], false;
    }

    /** `fetchSuggestions`, run when the query changes. `permission` and `position` are the device's
        answers (`None` where the call threw), `dist` the distance between two points, and `failed`
        says whether something else in the handler threw, in which case the list is emptied. */
    method FetchSuggestions(query: string, permission: Option<string>, position: Option<Coordinates>,
                            dist: (Coordinates, Coordinates) -> real, failed: bool)
      modifies this`suggestions, this`isLoading
      ensures !isLoading
      ensures failed ==> suggestions == []
      ensures !failed ==> suggestions == Suggestions(query, DeviceLocation(permission, position), dist)
    {
      isLoading := true;
      if failed {
        suggestions := [];
      } else if IsBlank(query) {
        suggestions := Defaults + RecentLocations;
      } else {
        var results := Filter(LocationsDb, query);
        var here := DeviceLocation(permission, position);
        var measured := Annotate(results, here, dist);
        suggestions := Defaults + SortByDistance(measured);
      }
      isLoading := false;
    }
  }
}
