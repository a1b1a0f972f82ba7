/** Models/TickSighting.php: the species and date-range `filter` over
    sighting lists, and the empty-argument short-circuits of the fetchers
    (the HTTP requests themselves are a parameter). */
module TickSighting {
  import opened Base
  import opened DateRanges

  /** `$x !== null ? trim($x) : null`. */
  function TrimOpt(o: Option<string>): (r: Option<string>)
    ensures r.Some? <==> o.Some?
    ensures r.Some? ==> r.value == Trim(o.value)
  {
    if o.Some? then Some(Trim(o.value)) else None
  }

  /** The case-insensitive species check: both sides trimmed and case-folded
      (`mb_strtolower`, abstract as `fold`); a record without species fails. */
  function SpeciesMatches(s: Sighting, species: string, fold: string -> string): (b: bool)
    ensures s.species.None? ==> !b
    ensures b ==> fold(Trim(s.species.value)) == fold(Trim(species))
  {
    s.species.Some? && fold(Trim(s.species.value)) == fold(Trim(species))
  }

  /** The closure given to `array_filter`, with the species argument already
      trimmed and the window already chosen. */
  function Keeps(s: Sighting, species: Option<string>, w: Option<Window>, cal: Calendar, fold: string -> string): (b: bool)
    ensures (species.None? || species.value == "") && w.None? ==> b
    ensures b && species.Some? && species.value != "" ==> s.species.Some?
    ensures b && w.Some? ==> DatePasses(s, w.value, cal)
  {
    && (species.Some? && species.value != "" ==> SpeciesMatches(s, species.value, fold))
    && (w.Some? ==> DatePasses(s, w.value, cal))
  }

  /** The window selected by the (trimmed) range argument; `null` falls into `default`. */
  function ActiveWindow(dateRange: Option<string>, now: Timestamp, cal: Calendar): (w: Option<Window>)
    ensures w.Some? <==> dateRange.Some? && Trim(dateRange.value) in Tokens
  {
    var dr := TrimOpt(dateRange);
    if dr.Some? then WindowFor(dr.value, now, cal) else None
  }

  /** `TickSighting::filter($sightings, $species, $dateRange)` evaluated at time `now`. */
  function Filter(sightings: seq<Sighting>, species: Option<string>, dateRange: Option<string>,
                  now: Timestamp, cal: Calendar, fold: string -> string): (r: seq<Sighting>)
    ensures |r| <= |sightings|
    ensures forall s :: s in r <==> s in sightings && Keeps(s, TrimOpt(species), ActiveWindow(dateRange, now, cal), cal, fold)
  {
    var sp := TrimOpt(species);
    var w := ActiveWindow(dateRange, now, cal);
    Select(sightings, s => Keeps(s, sp, w, cal, fold))
  }

  /** The result is an order-preserving subsequence of the input. */
  lemma FilterIsSubsequence(sightings: seq<Sighting>, species: Option<string>, dateRange: Option<string>,
                            now: Timestamp, cal: Calendar, fold: string -> string)
    ensures IsSubsequence(Filter(sightings, species, dateRange, now, cal, fold), sightings)
  {
    var sp := TrimOpt(species);
    var w := ActiveWindow(dateRange, now, cal);
    SelectIsSubsequence(sightings, s => Keeps(s, sp, w, cal, fold));
  }

  /** Without a species (null, or blank after trimming) and without a
      recognised range, the input comes back unchanged and in order. */
  lemma FilterPassThrough(sightings: seq<Sighting>, species: Option<string>, dateRange: Option<string>,
                          now: Timestamp, cal: Calendar, fold: string -> string)
    requires species.None? || Trim(species.value) == ""
    requires dateRange.None? || Trim(dateRange.value) !in Tokens
    ensures Filter(sightings, species, dateRange, now, cal, fold) == sightings
  {
    var sp := TrimOpt(species);
    var w := ActiveWindow(dateRange, now, cal);
    SelectAll(sightings, s => Keeps(s, sp, w, cal, fold));
  }

  /** Filtering the result again with the same arguments at the same time changes nothing. */
  lemma FilterIdempotent(sightings: seq<Sighting>, species: Option<string>, dateRange: Option<string>,
                         now: Timestamp, cal: Calendar, fold: string -> string)
    ensures var once := Filter(sightings, species, dateRange, now, cal, fold);
      Filter(once, species, dateRange, now, cal, fold) == once
  {
    var sp := TrimOpt(species);
    var w := ActiveWindow(dateRange, now, cal);
    SelectIdempotent(sightings, s => Keeps(s, sp, w, cal, fold));
  }

  /** A set species keeps exactly the records whose trimmed, folded species
      equals the trimmed, folded argument; records without species are dropped. */
  lemma FilterBySpecies(sightings: seq<Sighting>, species: string, dateRange: Option<string>,
                        now: Timestamp, cal: Calendar, fold: string -> string, s: Sighting)
    requires Trim(species) != ""
    requires s in Filter(sightings, Some(species), dateRange, now, cal, fold)
    ensures s.species.Some?
    ensures fold(Trim(s.species.value)) == fold(Trim(species))
  {
    TrimIdempotent(species);
  }

  /** An active range keeps only dated, parseable records inside its
      inclusive bounds, and keeps every such record that passes the species check. */
  lemma FilterByDate(sightings: seq<Sighting>, species: Option<string>, token: string,
                     now: Timestamp, cal: Calendar, fold: string -> string, s: Sighting)
    requires Trim(token) in Tokens
    requires s in sightings
    ensures var w := WindowFor(Trim(token), now, cal).value;
      s in Filter(sightings, species, Some(token), now, cal, fold) <==>
        (Keeps(s, TrimOpt(species), None, cal, fold) &&
         Filled(s.date) && cal.parse(s.date.value).Some? &&
         w.start.value <= cal.parse(s.date.value).value &&
         (w.end.Some? ==> cal.parse(s.date.value).value <= w.end.value))
  {
  }

  /** `getByCity`: an empty city returns `[]` whatever the endpoint would answer. */
  function GetByCity(city: string, endpoint: string -> seq<Sighting>): (r: seq<Sighting>)
    ensures city == "" ==> r == []
    ensures city != "" ==> r == endpoint(city)
  {
    if city == "" then [] else endpoint(city)
  }

  /** `getBySpecies`: an empty species returns `[]` whatever the endpoint would answer. */
  function GetBySpecies(species: string, endpoint: string -> seq<Sighting>): (r: seq<Sighting>)
    ensures species == "" ==> r == []
    ensures species != "" ==> r == endpoint(species)
  {
    if species == "" then [] else endpoint(species)
  }

  /** No request is made for an empty argument: the result does not depend on the endpoint. */
  lemma EmptyArgumentsMakeNoRequest(e1: string -> seq<Sighting>, e2: string -> seq<Sighting>)
    ensures GetByCity("", e1) == GetByCity("", e2) == []
    ensures GetBySpecies("", e1) == GetBySpecies("", e2) == []
  {
  }
}
