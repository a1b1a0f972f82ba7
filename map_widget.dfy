/** js/map.js: the client side of the map page. Each sighting gets a
    severity from its species and a colour from the severity; the
    sightings at a city with known coordinates are grouped per city; a
    marker is made for each such sighting whose severity passes the
    severity filter; and clicking a marker shows the ten newest dated
    sightings of its city. Leaflet, the DOM and the jitter are not modelled. */
module MapWidget {
  import opened Base
  import UserSighting

  // ================================================================ severity

  /** `speciesSeverity[species]`; `None` for a species the table lacks. */
  function SeverityTable(species: string): (r: Option<string>)
    ensures r.Some? <==> species in {"Marsh tick", "Southern rodent tick", "Passerine tick", "Tree-hole tick", "Fox/badger tick"}
  {
    match species
    case "Marsh tick" => Some("medium")
    case "Southern rodent tick" => Some("medium")
    case "Passerine tick" => Some("high")
    case "Tree-hole tick" => Some("low")
    case "Fox/badger tick" => Some("high")
    case _ => None
  }

  /** `getSeverityForSighting`: the table value of `species || ''`, else `'low'`. */
  function SeverityOf(s: Sighting): (sev: string)
    ensures sev in {"low", "medium", "high"}
    ensures JsTruthy(s.species) && SeverityTable(s.species.value).Some? ==> sev == SeverityTable(s.species.value).value
    ensures !JsTruthy(s.species) || SeverityTable(s.species.value).None? ==> sev == "low"
  {
    var species := if JsTruthy(s.species) then s.species.value else "";
    var sev := SeverityTable(species);
    if sev.Some? && sev.value != "" then sev.value else "low"
  }

  /** The severity table covers exactly the species that have a Latin name. */
  lemma SeverityTableMatchesLatinNames(species: string)
    ensures SeverityTable(species).Some? <==> UserSighting.LatinNameOf(species).Some?
  {
  }

  const Red := "#e74c3c"
  const Yellow := "#f1c40f"
  const Green := "#2ecc71"

  /** `getSeverityColor`. */
  function ColorOf(severity: string): (c: string)
    ensures c in {Red, Yellow, Green}
    ensures c == Red <==> severity == "high"
    ensures c == Yellow <==> severity == "medium"
  {
    if severity == "high" then Red
    else if severity == "medium" then Yellow
    else Green
  }

  /** The three severities get three different colours. */
  lemma ColorsDistinguishSeverities(a: string, b: string)
    requires a in {"low", "medium", "high"} && b in {"low", "medium", "high"}
    ensures ColorOf(a) == ColorOf(b) <==> a == b
  {
  }

  /** `matchesSeverityFilter`: an undefined or empty filter lets every
      severity through; a set filter lets exactly its own severity through. */
  function MatchesSeverityFilter(severity: string, selected: Option<string>): (b: bool)
    ensures selected.None? || selected.value == "" ==> b
    ensures selected.Some? && selected.value != "" ==> (b <==> severity == selected.value)
  {
    !JsTruthy(selected) || severity == selected.value
  }

  // ================================================================ cities

  /** The keys of `cityCoordinates`. */
  const KnownCities: set<string> := {
    "Nottingham", "Glasgow", "London", "Manchester", "Sheffield", "Liverpool", "Bristol",
    "Birmingham", "Edinburgh", "Cardiff", "Southampton", "Newcastle", "Leeds", "Leicester"}

  /** `sighting.location || sighting.city`, when truthy. */
  function CityOf(s: Sighting): (c: Option<string>)
    ensures c.Some? ==> c.value != ""
    ensures c.Some? <==> JsTruthy(s.location) || JsTruthy(s.city)
    ensures JsTruthy(s.location) ==> c == s.location
    ensures !JsTruthy(s.location) && JsTruthy(s.city) ==> c == s.city
  {
    if JsTruthy(s.location) then s.location
    else if JsTruthy(s.city) then s.city
    else None
  }

  /** The city a sighting is placed at: a truthy city with coordinates. */
  function PlacedAt(s: Sighting): (c: Option<string>)
    ensures c.Some? <==> CityOf(s).Some? && CityOf(s).value in KnownCities
    ensures c.Some? ==> c == CityOf(s)
  {
    var c := CityOf(s);
    if c.Some? && c.value in KnownCities then c else None
  }

  /** The sightings placed at `city`, in input order: the input filtered
      by the city a sighting is placed at. */
  function CitySightings(xs: seq<Sighting>, city: string): (r: seq<Sighting>)
    ensures forall s :: s in r <==> s in xs && PlacedAt(s) == Some(city)
    ensures |r| <= |xs|
  {
    if xs == [] then []
    else
      var init := CitySightings(xs[..|xs| - 1], city);
      var s := xs[|xs| - 1];
      assert forall t :: t in xs <==> t in xs[..|xs| - 1] || t == s;
      if PlacedAt(s) == Some(city) then init + [s] else init
  }

  /** A city's group is the input filtered by the city each sighting is
      placed at: every one of its sightings, each as often as in the
      input, in input order. */
  lemma {:induction false} CitySightingsIsFilter(xs: seq<Sighting>, city: string)
    ensures CitySightings(xs, city) == Select(xs, (s: Sighting) => PlacedAt(s) == Some(city))
  {
    if xs != [] {
      var init := xs[..|xs| - 1];
      var last := xs[|xs| - 1];
      CitySightingsIsFilter(init, city);
      SelectAppend(init, last, (s: Sighting) => PlacedAt(s) == Some(city));
      assert init + [last] == xs;
    }
  }

  /** Hence a city's group keeps every one of its sightings, each as
      often as in the input, in input order. */
  lemma CitySightingsInOrder(xs: seq<Sighting>, city: string)
    ensures IsSubsequence(CitySightings(xs, city), xs)
    ensures forall s :: PlacedAt(s) == Some(city) ==> multiset(CitySightings(xs, city))[s] == multiset(xs)[s]
  {
    CitySightingsIsFilter(xs, city);
    SelectIsSubsequence(xs, (s: Sighting) => PlacedAt(s) == Some(city));
    SelectCounts(xs, (s: Sighting) => PlacedAt(s) == Some(city));
  }

  /** The `forEach` that fills `cityGroups`: one list per placed city,
      holding that city's sightings in input order. */
  method CityGroups(xs: seq<Sighting>) returns (groups: map<string, seq<Sighting>>)
    ensures forall c :: c in groups <==> CitySightings(xs, c) != []
    ensures forall c :: c in groups ==> groups[c] == CitySightings(xs, c)
  {
    groups := map[];
    for i := 0 to |xs|
      invariant forall c :: c in groups <==> CitySightings(xs[..i], c) != []
      invariant forall c :: c in groups ==> groups[c] == CitySightings(xs[..i], c)
    {
      var s := xs[i];
      assert xs[..i + 1][..i] == xs[..i];
      var city := if JsTruthy(s.location) then s.location else s.city;
      if !JsTruthy(city) {
        continue;
      }
      if city.value !in KnownCities {
        continue;
      }
      if city.value !in groups {
        groups := groups[city.value := []];
      }
      groups := groups[city.value := groups[city.value] + [s]];
    }
    assert xs[..|xs|] == xs;
  }

  /** Every group lies within the known cities, and every placed sighting
      is in the group of its city. */
  lemma GroupsCoverPlacedSightings(xs: seq<Sighting>, city: string, s: Sighting)
    ensures CitySightings(xs, city) != [] ==> city in KnownCities
    ensures s in xs && PlacedAt(s) == Some(city) ==> s in CitySightings(xs, city)
  {
    if CitySightings(xs, city) != [] {
      var t := CitySightings(xs, city)[0];
      assert t in CitySightings(xs, city);
    }
  }

  // ================================================================ markers

  /** What `L.circleMarker` is given that the model keeps: the sighting,
      its city (for the click handler) and the fill colour. */
  datatype Marker = Marker(sighting: Sighting, city: string, color: string)

  /** A sighting gets a marker: it is placed at a city and its severity
      passes the filter. */
  predicate GetsMarker(s: Sighting, selected: Option<string>)
  {
    PlacedAt(s).Some? && MatchesSeverityFilter(SeverityOf(s), selected)
  }

  /** The sightings that get a marker, in input order. */
  function MarkedSightings(xs: seq<Sighting>, selected: Option<string>): (r: seq<Sighting>)
    ensures forall s :: s in r <==> s in xs && GetsMarker(s, selected)
  {
    Select(xs, (s: Sighting) => GetsMarker(s, selected))
  }

  /** The second `forEach`: one marker per sighting that gets one, coloured by severity. */
  method Markers(xs: seq<Sighting>, selected: Option<string>) returns (markers: seq<Marker>)
    ensures |markers| == |MarkedSightings(xs, selected)|
    ensures forall k :: 0 <= k < |markers| ==>
      markers[k].sighting == MarkedSightings(xs, selected)[k] &&
      Some(markers[k].city) == PlacedAt(markers[k].sighting) &&
      markers[k].color == ColorOf(SeverityOf(markers[k].sighting))
  {
    markers := [];
    for i := 0 to |xs|
      invariant MarkersOf(markers, MarkedTail(xs, i, selected))
    {
      MarkedTailStep(xs, i, selected);
      var m := MarkerFor(xs[i], selected);
      if m.Some? {
        MarkersOfAppend(markers, MarkedTail(xs, i, selected), m.value);
        markers := markers + [m.value];
      }
    }
    MarkedTailAll(xs, selected);
  }

  /** `markers` are the markers of `ss`, one each, in order. */
  predicate MarkersOf(markers: seq<Marker>, ss: seq<Sighting>)
  {
    |markers| == |ss| &&
    forall k :: 0 <= k < |markers| ==>
      markers[k].sighting == ss[k] &&
      Some(markers[k].city) == PlacedAt(ss[k]) &&
      markers[k].color == ColorOf(SeverityOf(ss[k]))
  }

  lemma MarkersOfAppend(markers: seq<Marker>, ss: seq<Sighting>, m: Marker)
    requires MarkersOf(markers, ss)
    requires Some(m.city) == PlacedAt(m.sighting) && m.color == ColorOf(SeverityOf(m.sighting))
    ensures MarkersOf(markers + [m], ss + [m.sighting])
  {
  }

  /** The body of the `forEach`: the three `return`s that skip a sighting,
      then the marker for it. */
  method MarkerFor(s: Sighting, selected: Option<string>) returns (m: Option<Marker>)
    ensures m.Some? <==> GetsMarker(s, selected)
    ensures m.Some? ==>
      m.value.sighting == s && Some(m.value.city) == PlacedAt(s) && m.value.color == ColorOf(SeverityOf(s))
  {
    var city := if JsTruthy(s.location) then s.location else s.city;
    if !JsTruthy(city) {
      return None;
    }
    if city.value !in KnownCities {
      return None;
    }
    var severity := SeverityOf(s);
    if !MatchesSeverityFilter(severity, selected) {
      return None;
    }
    m := Some(Marker(s, city.value, ColorOf(severity)));
  }

  /** The marked sightings among the first `i`, built up from the front. */
  function MarkedTail(xs: seq<Sighting>, i: int, selected: Option<string>): seq<Sighting>
    requires 0 <= i <= |xs|
  {
    MarkedSightings(xs[..i], selected)
  }

  lemma MarkedTailStep(xs: seq<Sighting>, i: int, selected: Option<string>)
    requires 0 <= i < |xs|
    ensures MarkedTail(xs, i + 1, selected) ==
      MarkedTail(xs, i, selected) + (if GetsMarker(xs[i], selected) then [xs[i]] else [])
  {
    assert xs[..i + 1] == xs[..i] + [xs[i]];
    SelectAppend(xs[..i], xs[i], (s: Sighting) => GetsMarker(s, selected));
  }

  lemma MarkedTailAll(xs: seq<Sighting>, selected: Option<string>)
    ensures MarkedTail(xs, |xs|, selected) == MarkedSightings(xs, selected)
  {
    assert xs[..|xs|] == xs;
  }

  /** Every marker's city group contains its own sighting. */
  lemma MarkerInItsGroup(xs: seq<Sighting>, selected: Option<string>, m: Marker)
    requires m.sighting in MarkedSightings(xs, selected) && Some(m.city) == PlacedAt(m.sighting)
    ensures m.sighting in CitySightings(xs, m.city)
  {
  }

  /** What the main render block leaves behind: the city groups, the
      markers, and whether the "No sightings available" message is shown. */
  datatype Rendered = Rendered(groups: map<string, seq<Sighting>>, markers: seq<Marker>, noSightingsMessage: bool)

  /** The main render logic over `apiSightings`: an empty list returns early
      with the message; otherwise the groups and the markers are built, and
      the message is shown when no marker was made. */
  method Render(xs: seq<Sighting>, selected: Option<string>) returns (r: Rendered)
    ensures forall c :: c in r.groups <==> CitySightings(xs, c) != []
    ensures forall c :: c in r.groups ==> r.groups[c] == CitySightings(xs, c)
    ensures |r.markers| == |MarkedSightings(xs, selected)|
    ensures forall k :: 0 <= k < |r.markers| ==> r.markers[k].sighting == MarkedSightings(xs, selected)[k]
    ensures MarkersOf(r.markers, MarkedSightings(xs, selected))
    ensures r.noSightingsMessage <==> MarkedSightings(xs, selected) == []
  {
    if |xs| == 0 {
      return Rendered(map[], [], true);
    }
    var groups := CityGroups(xs);
    var markers := Markers(xs, selected);
    r := Rendered(groups, markers, |markers| == 0);
  }

  // ================================================================ timeline

  /** `new Date(s).getTime()`, `None` for an invalid date (NaN). */
  type DateParser = string -> Option<int>

  /** `.filter(s => !!s.date)`. */
  function Dated(xs: seq<Sighting>): (r: seq<Sighting>)
    ensures forall s :: s in r <==> s in xs && JsTruthy(s.date)
    ensures forall k :: 0 <= k < |r| ==> JsTruthy(r[k].date)
  {
    Select(xs, (s: Sighting) => JsTruthy(s.date))
  }

  /** The comparator `new Date(b.date) - new Date(a.date)` is negative: `a`
      is strictly newer than `b`. With an invalid date the difference is
      NaN, which orders nothing. */
  predicate Newer(a: Sighting, b: Sighting, parse: DateParser)
    requires JsTruthy(a.date) && JsTruthy(b.date)
  {
    parse(a.date.value).Some? && parse(b.date.value).Some? &&
    parse(a.date.value).value > parse(b.date.value).value
  }

  /** Stable insertion of `x` into a newest-first list: before the first
      element it is strictly newer than. */
  function Insert(x: Sighting, ys: seq<Sighting>, parse: DateParser): (r: seq<Sighting>)
    requires JsTruthy(x.date) && forall k :: 0 <= k < |ys| ==> JsTruthy(ys[k].date)
    ensures |r| == |ys| + 1
    ensures forall k :: 0 <= k < |r| ==> JsTruthy(r[k].date)
    ensures multiset(r) == multiset(ys) + multiset{x}
  {
    if ys == [] then [x]
    else if Newer(x, ys[0], parse) then [x] + ys
    else
      assert ys == [ys[0]] + ys[1..];
      [ys[0]] + Insert(x, ys[1..], parse)
  }

  /** `.sort(...)`, as a stable insertion sort. */
  function SortNewestFirst(xs: seq<Sighting>, parse: DateParser): (r: seq<Sighting>)
    requires forall k :: 0 <= k < |xs| ==> JsTruthy(xs[k].date)
    ensures |r| == |xs|
    ensures forall k :: 0 <= k < |r| ==> JsTruthy(r[k].date)
  {
    if xs == [] then []
    else Insert(xs[|xs| - 1], SortNewestFirst(xs[..|xs| - 1], parse), parse)
  }

  /** The first ten of the sorted dated sightings of a city group. */
  function Timeline(group: seq<Sighting>, parse: DateParser): (r: seq<Sighting>)
    ensures |r| <= 10
    ensures forall k :: 0 <= k < |r| ==> JsTruthy(r[k].date)
  {
    var sorted := SortNewestFirst(Dated(group), parse);
    if |sorted| <= 10 then sorted else sorted[..10]
  }

  /** Every date in `xs` parses. */
  predicate AllParse(xs: seq<Sighting>, parse: DateParser)
  {
    forall k :: 0 <= k < |xs| ==> JsTruthy(xs[k].date) && parse(xs[k].date.value).Some?
  }

  /** The time of a sighting whose date parses. */
  function TimeOf(s: Sighting, parse: DateParser): int
    requires JsTruthy(s.date) && parse(s.date.value).Some?
  {
    parse(s.date.value).value
  }

  /** Newest first: no later entry is newer than an earlier one. */
  predicate NewestFirst(xs: seq<Sighting>, parse: DateParser)
    requires AllParse(xs, parse)
  {
    forall i, j :: 0 <= i < j < |xs| ==> TimeOf(xs[i], parse) >= TimeOf(xs[j], parse)
  }

  /** The sort permutes its input. */
  lemma {:induction false} SortIsPermutation(xs: seq<Sighting>, parse: DateParser)
    requires forall k :: 0 <= k < |xs| ==> JsTruthy(xs[k].date)
    ensures multiset(SortNewestFirst(xs, parse)) == multiset(xs)
  {
    if xs != [] {
      var init := xs[..|xs| - 1];
      SortIsPermutation(init, parse);
      assert xs == init + [xs[|xs| - 1]];
    }
  }

  /** Every element of an insertion is the inserted one or an old one. */
  lemma {:induction false} InsertMembers(x: Sighting, ys: seq<Sighting>, parse: DateParser)
    requires JsTruthy(x.date) && forall k :: 0 <= k < |ys| ==> JsTruthy(ys[k].date)
    ensures forall k :: 0 <= k < |Insert(x, ys, parse)| ==> Insert(x, ys, parse)[k] == x || Insert(x, ys, parse)[k] in ys
  {
    if ys != [] && !Newer(x, ys[0], parse) {
      var rest := ys[1..];
      InsertMembers(x, rest, parse);
      var tail := Insert(x, rest, parse);
      assert Insert(x, ys, parse) == [ys[0]] + tail;
      assert forall e :: e in rest ==> e in ys;
    }
  }

  /** Inserting into a newest-first list keeps it newest first. */
  lemma {:induction false} InsertSorted(x: Sighting, ys: seq<Sighting>, parse: DateParser)
    requires JsTruthy(x.date) && parse(x.date.value).Some?
    requires AllParse(ys, parse) && NewestFirst(ys, parse)
    ensures AllParse(Insert(x, ys, parse), parse)
    ensures NewestFirst(Insert(x, ys, parse), parse)
    decreases |ys|, 1
  {
    var r := Insert(x, ys, parse);
    InsertMembers(x, ys, parse);
    assert AllParse(r, parse) by {
      forall k | 0 <= k < |r| ensures JsTruthy(r[k].date) && parse(r[k].date.value).Some? {
        if r[k] != x {
          var q :| 0 <= q < |ys| && ys[q] == r[k];
        }
      }
    }
    if ys != [] && !Newer(x, ys[0], parse) {
      InsertSortedLater(x, ys, parse);
    } else if ys != [] {
      forall i, j | 0 <= i < j < |r| ensures TimeOf(r[i], parse) >= TimeOf(r[j], parse) {
        assert r[j] == ys[j - 1];
        if i > 0 {
          assert r[i] == ys[i - 1];
        } else {
          assert TimeOf(ys[0], parse) >= TimeOf(ys[j - 1], parse);
        }
      }
    }
  }

  /** The case of `InsertSorted` where `x` goes after the head. */
  lemma {:induction false} InsertSortedLater(x: Sighting, ys: seq<Sighting>, parse: DateParser)
    requires JsTruthy(x.date) && parse(x.date.value).Some?
    requires AllParse(ys, parse) && NewestFirst(ys, parse)
    requires ys != [] && !Newer(x, ys[0], parse)
    requires AllParse(Insert(x, ys, parse), parse)
    ensures NewestFirst(Insert(x, ys, parse), parse)
    decreases |ys|, 0
  {
    var r := Insert(x, ys, parse);
    var rest := ys[1..];
    assert AllParse(rest, parse) by {
      forall k | 0 <= k < |rest| ensures JsTruthy(rest[k].date) && parse(rest[k].date.value).Some? {
        assert rest[k] == ys[k + 1];
      }
    }
    assert NewestFirst(rest, parse) by {
      forall i, j | 0 <= i < j < |rest| ensures TimeOf(rest[i], parse) >= TimeOf(rest[j], parse) {
        assert rest[i] == ys[i + 1] && rest[j] == ys[j + 1];
      }
    }
    InsertSorted(x, rest, parse);
    InsertMembers(x, rest, parse);
    var tail := Insert(x, rest, parse);
    assert r == [ys[0]] + tail;
    forall i, j | 0 <= i < j < |r| ensures TimeOf(r[i], parse) >= TimeOf(r[j], parse) {
      assert r[j] == tail[j - 1];
      if i > 0 {
        assert r[i] == tail[i - 1];
      } else if r[j] != x {
        var q :| 0 <= q < |rest| && rest[q] == r[j];
        assert rest[q] == ys[q + 1];
      }
    }
  }

  /** When every date parses, the sort orders newest first. */
  lemma {:induction false} SortSorted(xs: seq<Sighting>, parse: DateParser)
    requires AllParse(xs, parse)
    ensures AllParse(SortNewestFirst(xs, parse), parse)
    ensures NewestFirst(SortNewestFirst(xs, parse), parse)
  {
    if xs != [] {
      var init := xs[..|xs| - 1];
      assert AllParse(init, parse) by {
        forall k | 0 <= k < |init| ensures JsTruthy(init[k].date) && parse(init[k].date.value).Some? {
          assert init[k] == xs[k];
        }
      }
      SortSorted(init, parse);
      InsertSorted(xs[|xs| - 1], SortNewestFirst(init, parse), parse);
    }
  }

  /** The date of `s` parses to the time `t`. */
  predicate AtTime(s: Sighting, parse: DateParser, t: int)
  {
    JsTruthy(s.date) && parse(s.date.value) == Some(t)
  }

  /** Nothing in a newest-first list has the time of an element newer
      than its head. */
  lemma NoneAtNewerTime(x: Sighting, ys: seq<Sighting>, parse: DateParser, t: int)
    requires AllParse(ys, parse) && NewestFirst(ys, parse) && ys != []
    requires AtTime(x, parse, t) && Newer(x, ys[0], parse)
    ensures Select(ys, (s: Sighting) => AtTime(s, parse, t)) == []
  {
    forall s | s in ys ensures !AtTime(s, parse, t) {
      var q :| 0 <= q < |ys| && ys[q] == s;
      assert TimeOf(ys[0], parse) >= TimeOf(ys[q], parse);
    }
    SelectNone(ys, (s: Sighting) => AtTime(s, parse, t));
  }

  /** The tail of a newest-first list whose dates parse is one too. */
  lemma NewestFirstTail(ys: seq<Sighting>, parse: DateParser)
    requires AllParse(ys, parse) && NewestFirst(ys, parse) && ys != []
    ensures AllParse(ys[1..], parse) && NewestFirst(ys[1..], parse)
  {
    var rest := ys[1..];
    assert AllParse(rest, parse) by {
      forall k | 0 <= k < |rest| ensures JsTruthy(rest[k].date) && parse(rest[k].date.value).Some? {
        assert rest[k] == ys[k + 1];
      }
    }
    forall i, j | 0 <= i < j < |rest| ensures TimeOf(rest[i], parse) >= TimeOf(rest[j], parse) {
      assert rest[i] == ys[i + 1] && rest[j] == ys[j + 1];
    }
  }

  lemma AllParsePrefix(xs: seq<Sighting>, parse: DateParser)
    requires AllParse(xs, parse) && xs != []
    ensures AllParse(xs[..|xs| - 1], parse)
  {
    var init := xs[..|xs| - 1];
    forall k | 0 <= k < |init| ensures JsTruthy(init[k].date) && parse(init[k].date.value).Some? {
      assert init[k] == xs[k];
    }
  }

  /** Insertion is stable: `x` lands after every element of its own time. */
  lemma {:induction false} InsertStable(x: Sighting, ys: seq<Sighting>, parse: DateParser, t: int)
    requires JsTruthy(x.date) && parse(x.date.value).Some?
    requires AllParse(ys, parse) && NewestFirst(ys, parse)
    ensures Select(Insert(x, ys, parse), (s: Sighting) => AtTime(s, parse, t)) ==
      Select(ys, (s: Sighting) => AtTime(s, parse, t)) + (if AtTime(x, parse, t) then [x] else [])
  {
    if ys == [] {
      assert [x][1..] == [];
    } else if Newer(x, ys[0], parse) {
      assert ([x] + ys)[1..] == ys;
      if AtTime(x, parse, t) {
        NoneAtNewerTime(x, ys, parse, t);
      }
    } else {
      NewestFirstTail(ys, parse);
      InsertStable(x, ys[1..], parse, t);
      assert ([ys[0]] + Insert(x, ys[1..], parse))[1..] == Insert(x, ys[1..], parse);
    }
  }

  /** The sort is stable when every date parses: the sightings of any one
      time come out in their input order. */
  lemma {:induction false} SortStable(xs: seq<Sighting>, parse: DateParser, t: int)
    requires AllParse(xs, parse)
    ensures Select(SortNewestFirst(xs, parse), (s: Sighting) => AtTime(s, parse, t)) ==
      Select(xs, (s: Sighting) => AtTime(s, parse, t))
  {
    if xs != [] {
      var init := xs[..|xs| - 1];
      var last := xs[|xs| - 1];
      var same := (s: Sighting) => AtTime(s, parse, t);
      AllParsePrefix(xs, parse);
      var sorted := SortNewestFirst(init, parse);
      var tail := if AtTime(last, parse, t) then [last] else [];
      calc {
        Select(SortNewestFirst(xs, parse), same);
        Select(Insert(last, sorted, parse), same);
        { SortSorted(init, parse); InsertStable(last, sorted, parse, t); }
        Select(sorted, same) + tail;
        { SortStable(init, parse, t); }
        Select(init, same) + tail;
        { SelectAppend(init, last, same); }
        Select(init + [last], same);
        { assert init + [last] == xs; }
        Select(xs, same);
      }
    }
  }

  /** The timeline shows dated sightings of the group, at most ten, and
      all of them when there are at most ten. */
  lemma TimelineContents(group: seq<Sighting>, parse: DateParser)
    ensures |Timeline(group, parse)| == (if |Dated(group)| <= 10 then |Dated(group)| else 10)
    ensures multiset(Timeline(group, parse)) <= multiset(Dated(group))
    ensures forall s :: s in Timeline(group, parse) ==> s in group && JsTruthy(s.date)
  {
    var dated := Dated(group);
    var sorted := SortNewestFirst(dated, parse);
    var t := Timeline(group, parse);
    SortIsPermutation(dated, parse);
    assert sorted == t + sorted[|t|..];
    assert multiset(sorted) == multiset(t) + multiset(sorted[|t|..]);
    forall s | s in t ensures s in group && JsTruthy(s.date) {
      assert s in multiset(sorted);
      assert s in multiset(dated);
    }
  }

  /** When every dated sighting of the group has a valid date, the timeline
      is the newest-first order cut at ten, and nothing cut off is newer
      than anything shown. */
  lemma TimelineNewest(group: seq<Sighting>, parse: DateParser)
    requires AllParse(Dated(group), parse)
    ensures AllParse(SortNewestFirst(Dated(group), parse), parse)
    ensures NewestFirst(SortNewestFirst(Dated(group), parse), parse)
    ensures Timeline(group, parse) == SortNewestFirst(Dated(group), parse)[..|Timeline(group, parse)|]
    ensures forall i, j :: 0 <= i < |Timeline(group, parse)| <= j < |Dated(group)| ==>
      TimeOf(Timeline(group, parse)[i], parse) >= TimeOf(SortNewestFirst(Dated(group), parse)[j], parse)
  {
    var sorted := SortNewestFirst(Dated(group), parse);
    var t := Timeline(group, parse);
    SortSorted(Dated(group), parse);
    forall i, j | 0 <= i < |t| <= j < |sorted| ensures TimeOf(t[i], parse) >= TimeOf(sorted[j], parse) {
      assert t[i] == sorted[i];
    }
  }

  /** What a click on a marker shows: the timeline of the marker's city group. */
  function ClickTimeline(groups: map<string, seq<Sighting>>, m: Marker, parse: DateParser): seq<Sighting>
  {
    Timeline(if m.city in groups then groups[m.city] else [], parse)
  }

  /** A dated sighting's own marker shows it in the timeline when its city
      has at most ten dated sightings. */
  lemma ClickShowsOwnSighting(xs: seq<Sighting>, selected: Option<string>, groups: map<string, seq<Sighting>>,
                              m: Marker, parse: DateParser)
    requires forall c :: c in groups <==> CitySightings(xs, c) != []
    requires forall c :: c in groups ==> groups[c] == CitySightings(xs, c)
    requires m.sighting in MarkedSightings(xs, selected) && Some(m.city) == PlacedAt(m.sighting)
    requires JsTruthy(m.sighting.date) && |Dated(CitySightings(xs, m.city))| <= 10
    ensures m.sighting in ClickTimeline(groups, m, parse)
  {
    var group := CitySightings(xs, m.city);
    assert m.sighting in group;
    assert m.city in groups;
    var dated := Dated(group);
    assert m.sighting in dated;
    SortIsPermutation(dated, parse);
    assert m.sighting in multiset(SortNewestFirst(dated, parse));
  }
}
