/** Controllers/MapController.php: the map page merges the API records with
    the normalised user records and applies an exact, case-sensitive species
    filter followed by the named date-range filter. */
module MapController {
  import opened Base
  import opened DateRanges
  import UserSighting

  /** The query-string parameters the map page reads (`?? ''` applied by `Index`). */
  datatype MapQuery = MapQuery(species: Option<string>, dateRange: Option<string>, severity: Option<string>)

  /** The data handed to the map view. */
  datatype MapPage = MapPage(
    sightings: seq<Sighting>,
    userSightings: seq<UserSighting.Row>,
    selectedSpecies: string,
    selectedRange: string,
    selectedSeverity: string)

  /** `isset($s['species']) && $s['species'] === $species`. */
  predicate SpeciesEquals(s: Sighting, species: string)
  {
    s.species.Some? && s.species.value == species
  }

  /** The species step of `filterSightings`; the empty string means no filtering. */
  function FilterBySpecies(sightings: seq<Sighting>, species: string): (r: seq<Sighting>)
    ensures species == "" ==> r == sightings
    ensures forall s :: s in r <==> s in sightings && (species == "" || SpeciesEquals(s, species))
  {
    if species == "" then sightings else Select(sightings, s => SpeciesEquals(s, species))
  }

  /** `filterByDateRange`: null, empty and unknown tokens return the input
      unchanged; otherwise only dated, parseable records inside the window stay. */
  function FilterByDateRange(sightings: seq<Sighting>, range: Option<string>, now: Timestamp, cal: Calendar): (r: seq<Sighting>)
    ensures range.None? || range.value !in Tokens ==> r == sightings
    ensures range.Some? && range.value in Tokens ==>
      forall s :: s in r <==> s in sightings && DatePasses(s, WindowFor(range.value, now, cal).value, cal)
  {
    if range.None? || range.value == "" then sightings
    else
      match WindowFor(range.value, now, cal)
      case None => sightings
      case Some(w) => Select(sightings, s => DatePasses(s, w, cal))
  }

  /** Both predicates of `filterSightings` together. */
  predicate Passes(s: Sighting, species: string, dateRange: string, now: Timestamp, cal: Calendar)
  {
    && (species == "" || SpeciesEquals(s, species))
    && (dateRange in Tokens ==> DatePasses(s, WindowFor(dateRange, now, cal).value, cal))
  }

  /** `filterSightings`: the species step, then the date step. */
  function FilterSightings(sightings: seq<Sighting>, species: string, dateRange: string, now: Timestamp, cal: Calendar): (r: seq<Sighting>)
    ensures forall s :: s in r <==> s in sightings && Passes(s, species, dateRange, now, cal)
  {
    FilterByDateRange(FilterBySpecies(sightings, species), Some(dateRange), now, cal)
  }

  /** The output is exactly one filter over the input with both predicates,
      hence an order-preserving subsequence of it. */
  lemma FilterSightingsIsOneFilter(sightings: seq<Sighting>, species: string, dateRange: string, now: Timestamp, cal: Calendar)
    ensures FilterSightings(sightings, species, dateRange, now, cal) ==
            Select(sightings, s => Passes(s, species, dateRange, now, cal))
    ensures IsSubsequence(FilterSightings(sightings, species, dateRange, now, cal), sightings)
  {
    var both := s => Passes(s, species, dateRange, now, cal);
    var bySpecies := s => SpeciesEquals(s, species);
    var all := (s: Sighting) => true;
    var sp := FilterBySpecies(sightings, species);
    if species == "" {
      SelectAll(sightings, all);
      assert sp == Select(sightings, all);
    } else {
      assert sp == Select(sightings, bySpecies);
    }
    var speciesStep := if species == "" then all else bySpecies;
    assert sp == Select(sightings, speciesStep);
    if dateRange in Tokens {
      var w := WindowFor(dateRange, now, cal).value;
      var byDate := s => DatePasses(s, w, cal);
      SelectThenSelect(sightings, speciesStep, byDate, both);
    } else {
      SelectThenSelect(sightings, speciesStep, all, both);
      SelectAll(sp, all);
    }
    SelectIsSubsequence(sightings, both);
  }

  /** With no filters the page shows every API record followed by every user record. */
  lemma FilterSightingsNoFilters(sightings: seq<Sighting>, dateRange: string, now: Timestamp, cal: Calendar)
    requires dateRange !in Tokens
    ensures FilterSightings(sightings, "", dateRange, now, cal) == sightings
  {
  }

  /** `index`: merge the API records and the normalised user rows (API first),
      read the filters from the query string, filter. */
  function Index(api: seq<Sighting>, rows: seq<UserSighting.Row>, query: MapQuery, now: Timestamp, cal: Calendar): (page: MapPage)
    ensures page.userSightings == rows
    ensures page.selectedSpecies == (if query.species.Some? then query.species.value else "")
    ensures page.selectedRange == (if query.dateRange.Some? then query.dateRange.value else "")
    ensures page.selectedSeverity == (if query.severity.Some? then query.severity.value else "")
    ensures forall s :: s in page.sightings <==>
      (s in api || s in UserSighting.GetAllNormalised(rows)) &&
      Passes(s, page.selectedSpecies, page.selectedRange, now, cal)
    ensures page.sightings == Select(api + UserSighting.GetAllNormalised(rows),
      (s: Sighting) => Passes(s, page.selectedSpecies, page.selectedRange, now, cal))
  {
    var species := if query.species.Some? then query.species.value else "";
    var dateRange := if query.dateRange.Some? then query.dateRange.value else "";
    var severity := if query.severity.Some? then query.severity.value else "";
    var combined := api + UserSighting.GetAllNormalised(rows);
    FilterSightingsIsOneFilter(combined, species, dateRange, now, cal);
    MapPage(FilterSightings(combined, species, dateRange, now, cal), rows, species, dateRange, severity)
  }

  /** The merge order: without filters, the page lists all API records and
      then all user records, each in its own order. */
  lemma IndexMergeOrder(api: seq<Sighting>, rows: seq<UserSighting.Row>, query: MapQuery, now: Timestamp, cal: Calendar)
    requires query.species.None? || query.species.value == ""
    requires query.dateRange.None? || query.dateRange.value !in Tokens
    ensures var page := Index(api, rows, query, now, cal);
      page.sightings == api + UserSighting.GetAllNormalised(rows) &&
      page.sightings[..|api|] == api &&
      forall i :: 0 <= i < |rows| ==> page.sightings[|api| + i] == UserSighting.Normalise(rows[i])
  {
    var combined := api + UserSighting.GetAllNormalised(rows);
    var dateRange := if query.dateRange.Some? then query.dateRange.value else "";
    FilterSightingsNoFilters(combined, dateRange, now, cal);
  }
}
