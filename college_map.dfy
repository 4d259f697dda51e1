/** The campus map page (src/pages/CollegeMap.tsx): the fetched location
    list, the search that filters it in memory, the session gate and the
    empty-state choice. */
module CollegeMap {
  import opened Js
  import opened Schema
  import opened Runtime

  /** A `campus_map` row as the page holds it. Latitude and longitude are
      carried by the row but read by no logic, so they are not modelled. */
  datatype Location = Location(
    id: string,
    name: string,
    building: Option<string>,
    floor: Option<int>,
    kind: LocationType,
    description: Option<string>)

  /** The badge colour of each location type. */
  const TypeColors: map<string, string> := map[
    "classroom" := "bg-collo-blue",
    "lab" := "bg-collo-purple",
    "office" := "bg-collo-gray",
    "hostel" := "bg-collo-orange",
    "canteen" := "bg-collo-green",
    "library" := "bg-[#8b5cf6]",
    "auditorium" := "bg-collo-red",
    "sports" := "bg-[#10b981]",
    "parking" := "bg-[#6b7280]",
    "department" := "bg-collo-blue",
    "other" := "bg-muted"]

  /** Every value of `location_type` has a badge colour, and the table has no other keys. */
  lemma TypeColorsCoverLocationTypes()
    ensures forall t :: TypeName(t) in TypeColors
    ensures forall k :: k in TypeColors ==> exists t :: TypeName(t) == k
  {
    forall k | k in TypeColors ensures exists t :: TypeName(t) == k {
      if k == "classroom" { assert TypeName(Classroom) == k; }
      else if k == "lab" { assert TypeName(Lab) == k; }
      else if k == "office" { assert TypeName(Office) == k; }
      else if k == "hostel" { assert TypeName(Hostel) == k; }
      else if k == "canteen" { assert TypeName(Canteen) == k; }
      else if k == "library" { assert TypeName(Library) == k; }
      else if k == "auditorium" { assert TypeName(Auditorium) == k; }
      else if k == "sports" { assert TypeName(Sports) == k; }
      else if k == "parking" { assert TypeName(Parking) == k; }
      else if k == "department" { assert TypeName(Department) == k; }
      else { assert TypeName(Other) == k; }
    }
  }

  /** `typeColors[location.type]`, defined for every location. */
  function BadgeColor(loc: Location): (r: string)
    ensures r in TypeColors.Values
  {
    TypeColorsCoverLocationTypes();
    TypeColors[TypeName(loc.kind)]
  }

  // ---------------------------------------------------------------- search

  /** The callback given to `locations.filter`: the lowered query occurs in
      the lowered name, in the lowered building when there is one, or in
      the lowered type. */
  predicate Matches(loc: Location, query: string): (r: bool)
    ensures query == "" ==> r
    ensures Includes(ToLowerCase(loc.name), ToLowerCase(query)) ==> r
  {
    var q := ToLowerCase(query);
    Includes(ToLowerCase(loc.name), q)
    || (loc.building.Some? && Includes(ToLowerCase(loc.building.value), q))
    || Includes(ToLowerCase(TypeName(loc.kind)), q)
  }

  /** `locations.filter(loc => Matches(loc, query))`: only matching
      locations, each taken from the input. */
  function Filter(locs: seq<Location>, query: string): (r: seq<Location>)
    ensures |r| <= |locs|
    ensures forall x :: x in r ==> x in locs && Matches(x, query)
  {
    if locs == [] then []
    else (if Matches(locs[0], query) then [locs[0]] else []) + Filter(locs[1..], query)
  }

  /** `!query.trim()`. */
  predicate IsBlank(query: string): (r: bool)
    ensures r <==> AllWhiteSpace(query)
  {
    TrimEmptyIffAllWhiteSpace(query);
    Trim(query) == ""
  }

  /** The list `handleSearch` shows: the whole list for a blank query, the
      filtered list otherwise. */
  function SearchResult(locations: seq<Location>, query: string): (r: seq<Location>)
    ensures |r| <= |locations|
    ensures forall x :: x in r ==> x in locations
  {
    if IsBlank(query) then locations else Filter(locations, query)
  }

  /** Filtering keeps every matching location as often as it occurs in the
      input and drops every other one. */
  lemma {:induction false} FilterCounts(locs: seq<Location>, query: string, x: Location)
    ensures multiset(Filter(locs, query))[x] == if Matches(x, query) then multiset(locs)[x] else 0
  {
    if locs != [] {
      var head := if Matches(locs[0], query) then [locs[0]] else [];
      var rest := Filter(locs[1..], query);
      FilterCounts(locs[1..], query, x);
      assert multiset(Filter(locs, query)) == multiset(head) + multiset(rest);
      assert locs == [locs[0]] + locs[1..];
      assert multiset(locs) == multiset{locs[0]} + multiset(locs[1..]);
    }
  }

  /** Every matching location of the input is in the result. */
  lemma FilterComplete(locs: seq<Location>, query: string, x: Location)
    requires x in locs && Matches(x, query)
    ensures x in Filter(locs, query)
  {
    FilterCounts(locs, query, x);
  }

  /** Filtering a concatenation filters each part and keeps them in order;
      with the one-element case this fixes the result order to the input order. */
  lemma {:induction false} FilterAppend(a: seq<Location>, b: seq<Location>, query: string)
    ensures Filter(a + b, query) == Filter(a, query) + Filter(b, query)
  {
    if a == [] {
      assert a + b == b;
    } else {
      var head := if Matches(a[0], query) then [a[0]] else [];
      calc {
        Filter(a + b, query);
        { assert (a + b)[0] == a[0] && (a + b)[1..] == a[1..] + b; }
        head + Filter(a[1..] + b, query);
        { FilterAppend(a[1..], b, query); }
        head + (Filter(a[1..], query) + Filter(b, query));
        (head + Filter(a[1..], query)) + Filter(b, query);
      }
    }
  }

  /** `s` is in the order `le` (for instance the server's order by name). */
  ghost predicate SortedBy(s: seq<Location>, le: (Location, Location) -> bool) {
    forall i, j :: 0 <= i < j < |s| ==> le(s[i], s[j])
  }

  /** The search keeps the order the rows arrived in. */
  lemma {:induction false} FilterKeepsOrder(locs: seq<Location>, query: string, le: (Location, Location) -> bool)
    requires SortedBy(locs, le)
    ensures SortedBy(Filter(locs, query), le)
  {
    if locs != [] {
      var tail := locs[1..];
      assert SortedBy(tail, le) by {
        forall i, j | 0 <= i < j < |tail| ensures le(tail[i], tail[j]) {
          assert tail[i] == locs[i + 1] && tail[j] == locs[j + 1];
        }
      }
      FilterKeepsOrder(tail, query, le);
      var rest := Filter(tail, query);
      forall y | y in rest ensures le(locs[0], y) {
        var k :| 0 <= k < |tail| && tail[k] == y;
        assert locs[k + 1] == y;
      }
      var r := Filter(locs, query);
      if Matches(locs[0], query) {
        assert r == [locs[0]] + rest;
        forall i, j | 0 <= i < j < |r| ensures le(r[i], r[j]) {
          assert r[j] == rest[j - 1];
          if i == 0 {
            assert rest[j - 1] in rest;
          } else {
            assert r[i] == rest[i - 1];
          }
        }
      } else {
        assert r == rest;
      }
    }
  }

  /** A one-row list keeps its row exactly when the row matches. */
  lemma FilterOne(x: Location, query: string)
    ensures Filter([x], query) == if Matches(x, query) then [x] else []
  {
    assert [x][1..] == [];
  }

  /** When no location matches, the filtered list is empty. */
  lemma {:induction false} FilterNoMatch(locs: seq<Location>, query: string)
    requires forall x :: x in locs ==> !Matches(x, query)
    ensures Filter(locs, query) == []
  {
    if locs != [] {
      assert locs[0] in locs;
      FilterNoMatch(locs[1..], query);
    }
  }

  /** A blank (empty or all white space) query restores the whole list. */
  lemma BlankQueryShowsAll(locations: seq<Location>, query: string)
    requires AllWhiteSpace(query)
    ensures SearchResult(locations, query) == locations
  {
    TrimEmptyIffAllWhiteSpace(query);
  }

  /** A query with a character that is not white space filters, and filters
      with the query as typed: the trimmed query is used only for the blank test. */
  lemma NonBlankQueryFilters(locations: seq<Location>, query: string)
    requires !AllWhiteSpace(query)
    ensures SearchResult(locations, query) == Filter(locations, query)
    ensures forall x :: x in SearchResult(locations, query) <==> x in locations && Matches(x, query)
  {
    TrimEmptyIffAllWhiteSpace(query);
    forall x | x in locations && Matches(x, query) ensures x in Filter(locations, query) {
      FilterComplete(locations, query, x);
    }
  }

  /** A query with one character that is not white space is not blank. */
  lemma VisibleCharNotBlank(query: string, i: nat)
    requires i < |query| && !IsWhiteSpace(query[i])
    ensures !IsBlank(query)
  {
    TrimEmptyIffAllWhiteSpace(query);
  }

  /** A lab room named "Lab" with no building. */
  const LabRoom: Location := Location("1", "Lab", None, None, Lab, None)

  lemma LabRoomMatching()
    ensures Matches(LabRoom, "lab") && !Matches(LabRoom, " lab")
  {
    var name := ToLowerCase("Lab");
    assert name[0] == LowerChar('L') == 'l';
    assert name == "lab";
    assert ToLowerCase("lab") == "lab";
    assert "lab" <= "lab";
    IncludesLength("lab", ToLowerCase(" lab"));
  }

  /** Surrounding spaces count: the lab room is found by "lab" but not by
      " lab", although both trim to the same text. */
  lemma UntrimmedQueryExample()
    ensures SearchResult([LabRoom], "lab") == [LabRoom]
    ensures SearchResult([LabRoom], " lab") == []
  {
    VisibleCharNotBlank("lab", 0);
    VisibleCharNotBlank(" lab", 1);
    LabRoomMatching();
    FilterOne(LabRoom, "lab");
    FilterOne(LabRoom, " lab");
  }

  /** A location without a building can match only through its name or its type. */
  lemma AbsentBuildingMatchesByNameOrType(loc: Location, query: string)
    requires loc.building.None?
    ensures Matches(loc, query) <==>
      Includes(ToLowerCase(loc.name), ToLowerCase(query))
      || Includes(ToLowerCase(TypeName(loc.kind)), ToLowerCase(query))
  {
  }

  /** The search ignores case: queries that lower to the same text give the same list. */
  lemma SearchIgnoresCase(locations: seq<Location>, q1: string, q2: string)
    requires ToLowerCase(q1) == ToLowerCase(q2)
    ensures SearchResult(locations, q1) == SearchResult(locations, q2)
  {
    assert AllWhiteSpace(q1) <==> AllWhiteSpace(q2) by {
      forall i | 0 <= i < |q1| ensures IsWhiteSpace(q1[i]) <==> IsWhiteSpace(q2[i]) {
        assert ToLowerCase(q1)[i] == ToLowerCase(q2)[i];
      }
    }
    TrimEmptyIffAllWhiteSpace(q1);
    TrimEmptyIffAllWhiteSpace(q2);
    SameMatchesSameFilter(locations, q1, q2);
  }

  lemma {:induction false} SameMatchesSameFilter(locs: seq<Location>, q1: string, q2: string)
    requires ToLowerCase(q1) == ToLowerCase(q2)
    ensures Filter(locs, q1) == Filter(locs, q2)
  {
    if locs != [] {
      SameMatchesSameFilter(locs[1..], q1, q2);
    }
  }

  // ------------------------------------------------------------------ view

  const HintTryAnother: string := "Try a different search term"
  const HintAddLocations: string := "Start by adding locations to your campus map"

  /** What the page renders: nothing, the "No locations found" block with a hint, or the cards. */
  datatype MapView = Blank | NoLocationsFound(hint: string) | Cards(shown: seq<Location>)

  function RenderMap(session: Option<Session>, filtered: seq<Location>, searchQuery: string): (v: MapView)
    ensures v == Blank <==> session.None?
    ensures v.Cards? ==> v.shown == filtered && filtered != []
    ensures v.NoLocationsFound? ==> filtered == []
  {
    if session.None? then Blank
    else if |filtered| == 0 then
      NoLocationsFound(if searchQuery != "" then HintTryAnother else HintAddLocations)
    else Cards(filtered)
  }

  /** Nothing renders without a session; the empty block says "Try a
      different search term" exactly when the typed query is non-empty
      (white space included); otherwise every filtered location has a card. */
  lemma RenderMapCases(session: Option<Session>, filtered: seq<Location>, searchQuery: string)
    ensures RenderMap(session, filtered, searchQuery) == Blank <==> session.None?
    ensures RenderMap(session, filtered, searchQuery) == NoLocationsFound(HintTryAnother)
      <==> session.Some? && filtered == [] && searchQuery != ""
    ensures RenderMap(session, filtered, searchQuery) == NoLocationsFound(HintAddLocations)
      <==> session.Some? && filtered == [] && searchQuery == ""
    ensures session.Some? && filtered != [] ==> RenderMap(session, filtered, searchQuery) == Cards(filtered)
  {
  }

  // ----------------------------------------------------------------- state

  /** The relation the page keeps between its lists: the shown list is the
      whole list (after a load) or the search result for the current query
      (after a search). A load does not reapply the query, so the shown list
      need not be the search result. */
  predicate Consistent(locations: seq<Location>, filtered: seq<Location>, searchQuery: string) {
    filtered == locations || filtered == SearchResult(locations, searchQuery)
  }

  /** The page shows only fetched locations. */
  lemma ConsistentShowsOnlyFetched(locations: seq<Location>, filtered: seq<Location>, searchQuery: string)
    requires Consistent(locations, filtered, searchQuery)
    ensures |filtered| <= |locations|
    ensures forall x :: x in filtered ==> x in locations
  {
  }

  /** A library named "Library" with no building. */
  const LibraryRoom: Location := Location("2", "Library", None, None, Library, None)

  lemma LibraryRoomMissesZzz()
    ensures !Matches(LibraryRoom, "zzz")
  {
    var q := ToLowerCase("zzz");
    assert q[0] == 'z';
    var name := ToLowerCase("Library");
    forall i | 0 <= i < |name| ensures name[i] != 'z' {
      assert name[i] == LowerChar("Library"[i]);
    }
    var kind := ToLowerCase(TypeName(Library));
    forall i | 0 <= i < |kind| ensures kind[i] != 'z' {
      assert kind[i] == LowerChar("library"[i]);
    }
    if Includes(name, q) { IncludesHasFirstChar(name, q); }
    if Includes(kind, q) { IncludesHasFirstChar(kind, q); }
  }

  /** After a successful load the search box may still hold a query that
      the shown list does not reflect: with "zzz" typed and the library
      loaded, the library is shown although the search would drop it. */
  lemma LoadDoesNotReapplyQuery()
    ensures Consistent([LibraryRoom], [LibraryRoom], "zzz")
    ensures SearchResult([LibraryRoom], "zzz") == []
  {
    VisibleCharNotBlank("zzz", 0);
    LibraryRoomMissesZzz();
    FilterOne(LibraryRoom, "zzz");
  }

  /** The component's state: the four React state cells, the selected
      location, and the log of its outward actions. */
  class CollegeMapPage {
    var session: Option<Session>
    var locations: seq<Location>
    var filteredLocations: seq<Location>
    var searchQuery: string
    var selectedLocation: Option<Location>
    var effects: seq<Effect>

    ghost predicate Valid()
      reads this
    {
      Consistent(locations, filteredLocations, searchQuery)
    }

    /** The first render: no session, empty lists, empty query. */
    constructor ()
      ensures Valid()
      ensures session == None && locations == [] && filteredLocations == []
      ensures searchQuery == "" && selectedLocation == None && effects == []
    {
      session := None;
      locations := [];
      filteredLocations := [];
      searchQuery := "";
      selectedLocation := None;
      effects := [];
    }

    /** The `getSession` answer: store it, then go to /auth without one or
        fetch the locations with one. */
    method SessionResolved(s: Option<Session>)
      requires Valid()
      modifies this`session, this`effects
      ensures Valid()
      ensures session == s
      ensures effects == old(effects) + [if s.None? then Navigate(AuthPath) else FetchCampusMap]
    {
      session := s;
      if s.None? {
        effects := effects + [Navigate(AuthPath)];
      } else {
        effects := effects + [FetchCampusMap];
      }
    }

    /** An auth-state change: store the session; only its absence acts
        (go to /auth), a present session does not refetch. */
    method AuthChanged(s: Option<Session>)
      requires Valid()
      modifies this`session, this`effects
      ensures Valid()
      ensures session == s
      ensures effects == old(effects) + (if s.None? then [Navigate(AuthPath)] else [])
    {
      session := s;
      if s.None? {
        effects := effects + [Navigate(AuthPath)];
      }
    }

    /** The fetch answered: both lists become the rows (`data || []`); the
        current query is not reapplied. */
    method LoadSucceeded(data: Option<seq<Location>>)
      modifies this`locations, this`filteredLocations
      ensures Valid()
      ensures locations == data.GetOr([]) && filteredLocations == locations
    {
      locations := data.GetOr([]);
      filteredLocations := data.GetOr([]);
    }

    /** The fetch failed: a toast, and neither list changes. */
    method LoadFailed()
      requires Valid()
      modifies this`effects
      ensures Valid()
      ensures effects == old(effects) + [ErrorToast("Failed to load locations")]
    {
      effects := effects + [ErrorToast("Failed to load locations")];
    }

    /** `handleSearch`: store the raw query, then filter the whole list. The
        result depends on `locations` and `q` only, never on the list shown before. */
    method Search(q: string)
      modifies this`searchQuery, this`filteredLocations
      ensures Valid()
      ensures searchQuery == q
      ensures filteredLocations == SearchResult(locations, q)
    {
      searchQuery := q;
      if IsBlank(q) {
        filteredLocations := locations;
        return;
      }
      var filtered := Filter(locations, q);
      filteredLocations := filtered;
    }

    /** A card was clicked. */
    method SelectLocation(loc: Location)
      requires Valid()
      modifies this`selectedLocation
      ensures Valid()
      ensures selectedLocation == Some(loc)
    {
      selectedLocation := Some(loc);
    }

    function View(): MapView
      reads this
    {
      RenderMap(session, filteredLocations, searchQuery)
    }
  }

  /** A signed-in visit to an empty campus map: the locations are fetched,
      none arrive, and the page shows the hint to add locations, not an error. */
  method SignedInEmptyCampus(s: Session) returns (v: MapView, log: seq<Effect>)
    ensures log == [FetchCampusMap]
    ensures v == NoLocationsFound(HintAddLocations)
  {
    var page := new CollegeMapPage();
    page.SessionResolved(Some(s));
    page.LoadSucceeded(Some([]));
    v := page.View();
    log := page.effects;
  }

  /** A non-blank query that no row matches leaves nothing to show. */
  lemma NoMatchSearchEmpty(rows: seq<Location>, q: string)
    requires !AllWhiteSpace(q)
    requires forall x :: x in rows ==> !Matches(x, q)
    ensures q != "" && SearchResult(rows, q) == []
  {
    NonBlankQueryFilters(rows, q);
    FilterNoMatch(rows, q);
  }

  /** A signed-in search whose result is empty shows the hint to try
      another term, whatever the query looks like. */
  method SearchWithEmptyResult(s: Session, rows: seq<Location>, q: string) returns (v: MapView)
    requires q != "" && SearchResult(rows, q) == []
    ensures v == NoLocationsFound(HintTryAnother)
  {
    var page := new CollegeMapPage();
    page.SessionResolved(Some(s));
    page.LoadSucceeded(Some(rows));
    page.Search(q);
    assert page.session == Some(s) && page.searchQuery == q && page.filteredLocations == [];
    v := page.View();
  }

  /** A search that matches none of the loaded rows empties the list and
      shows the hint to try another term. */
  method SearchWithoutMatch(s: Session, rows: seq<Location>, q: string) returns (v: MapView)
    requires !AllWhiteSpace(q)
    requires forall x :: x in rows ==> !Matches(x, q)
    ensures v == NoLocationsFound(HintTryAnother)
  {
    NoMatchSearchEmpty(rows, q);
    v := SearchWithEmptyResult(s, rows, q);
  }
}
