/** Controllers/EducationController.php: the education dashboard derives the
    sorted option lists (cities, years, species) from all API sightings, a
    12-bucket monthly histogram for the selected city, year and species, and
    for each of five species its two most frequent cities and its peak month. */
module Education {
  import opened Base
  import TickSighting

  /** A run of `index` either finishes or is aborted by the exception
      `new DateTime($date)` throws on a date it cannot parse. */
  datatype Outcome<T> = Done(value: T) | DateException(date: string)

  // ================================================================ option lists

  /** The non-empty locations, in record order (the values appended to `$cities`). */
  function Locations(xs: seq<Sighting>): (r: seq<string>)
    ensures forall c :: c in r ==> PhpTruthy(c)
  {
    if xs == [] then []
    else Locations(xs[..|xs| - 1]) + (if Filled(xs[|xs| - 1].location) then [xs[|xs| - 1].location.value] else [])
  }

  /** The non-empty species, in record order (the values appended to `$speciesList`). */
  function SpeciesNames(xs: seq<Sighting>): (r: seq<string>)
    ensures forall c :: c in r ==> PhpTruthy(c)
  {
    if xs == [] then []
    else SpeciesNames(xs[..|xs| - 1]) + (if Filled(xs[|xs| - 1].species) then [xs[|xs| - 1].species.value] else [])
  }

  /** The years of the non-empty, parseable dates, in record order. */
  function Years(xs: seq<Sighting>, cal: Calendar): seq<int>
  {
    if xs == [] then []
    else
      var s := xs[|xs| - 1];
      Years(xs[..|xs| - 1], cal) +
        (if Filled(s.date) && cal.parse(s.date.value).Some? then [cal.yearOf(cal.parse(s.date.value).value)] else [])
  }

  /** Record `j` has a non-empty date that `new DateTime` cannot parse. */
  predicate BadDateAt(xs: seq<Sighting>, j: int, cal: Calendar)
  {
    0 <= j < |xs| && Filled(xs[j].date) && cal.parse(xs[j].date.value).None?
  }

  lemma {:induction false} LocationsMembers(xs: seq<Sighting>, c: string)
    ensures c in Locations(xs) <==> exists j :: 0 <= j < |xs| && Filled(xs[j].location) && xs[j].location.value == c
  {
    if xs != [] {
      var init := xs[..|xs| - 1];
      LocationsMembers(init, c);
      if c in Locations(init) {
        var j :| 0 <= j < |init| && Filled(init[j].location) && init[j].location.value == c;
        assert xs[j] == init[j];
      }
      if exists j :: 0 <= j < |xs| && Filled(xs[j].location) && xs[j].location.value == c {
        var j :| 0 <= j < |xs| && Filled(xs[j].location) && xs[j].location.value == c;
        if j < |init| {
          assert init[j] == xs[j];
        }
      }
    }
  }

  lemma {:induction false} SpeciesNamesMembers(xs: seq<Sighting>, c: string)
    ensures c in SpeciesNames(xs) <==> exists j :: 0 <= j < |xs| && Filled(xs[j].species) && xs[j].species.value == c
  {
    if xs != [] {
      var init := xs[..|xs| - 1];
      SpeciesNamesMembers(init, c);
      if c in SpeciesNames(init) {
        var j :| 0 <= j < |init| && Filled(init[j].species) && init[j].species.value == c;
        assert xs[j] == init[j];
      }
      if exists j :: 0 <= j < |xs| && Filled(xs[j].species) && xs[j].species.value == c {
        var j :| 0 <= j < |xs| && Filled(xs[j].species) && xs[j].species.value == c;
        if j < |init| {
          assert init[j] == xs[j];
        }
      }
    }
  }

  /** `sort(array_values(array_unique($xs)))`: strictly ascending, same elements.
      Each element is inserted at its place in the sorted prefix unless present. */
  method SortUnique<T(==, !new)>(xs: seq<T>, lt: (T, T) -> bool) returns (r: seq<T>)
    requires StrictTotalOrder(lt)
    ensures StrictlySorted(r, lt)
    ensures forall x :: x in r <==> x in xs
  {
    r := [];
    var i := 0;
    while i < |xs|
      invariant 0 <= i <= |xs|
      invariant StrictlySorted(r, lt)
      invariant forall x :: x in r <==> x in xs[..i]
    {
      var x := xs[i];
      var k := 0;
      while k < |r| && lt(r[k], x)
        invariant 0 <= k <= |r|
        invariant forall j :: 0 <= j < k ==> lt(r[j], x)
      {
        k := k + 1;
      }
      if k == |r| || r[k] != x {
        assert forall j :: k <= j < |r| ==> lt(x, r[j]) by {
          if k < |r| {
            assert lt(x, r[k]);
            forall j | k < j < |r| ensures lt(x, r[j]) {
              assert lt(r[k], r[j]);
            }
          }
        }
        r := r[..k] + [x] + r[k..];
      }
      assert xs[..i + 1] == xs[..i] + [x];
      i := i + 1;
    }
    assert xs[..i] == xs;
  }

  /** `(a, b) => a < b`, the order `sort` uses for the integer years. */
  function IntLess(a: int, b: int): bool
  {
    a < b
  }

  /** The three option lists of the dashboard. */
  datatype Options = Options(cities: seq<string>, years: seq<int>, speciesList: seq<string>)

  /** The two option-list loops of `index` with their `array_unique` and `sort`. */
  method CollectOptions(all: seq<Sighting>, cal: Calendar) returns (r: Outcome<Options>)
    ensures r.DateException? <==> exists j :: BadDateAt(all, j, cal)
    ensures r.DateException? ==> exists j :: BadDateAt(all, j, cal) && r.date == all[j].date.value &&
                                             forall k :: 0 <= k < j ==> !BadDateAt(all, k, cal)
    ensures r.Done? ==> StrictlySorted(r.value.cities, StrLess)
    ensures r.Done? ==> StrictlySorted(r.value.years, IntLess)
    ensures r.Done? ==> StrictlySorted(r.value.speciesList, StrLess)
    ensures r.Done? ==> forall c :: c in r.value.cities <==>
      exists j :: 0 <= j < |all| && Filled(all[j].location) && all[j].location.value == c
    ensures r.Done? ==> forall c :: c in r.value.speciesList <==>
      exists j :: 0 <= j < |all| && Filled(all[j].species) && all[j].species.value == c
    ensures r.Done? ==> forall y :: y in r.value.years <==> y in Years(all, cal)
  {
    var cities: seq<string> := [];
    var years: seq<int> := [];
    var i := 0;
    while i < |all|
      invariant 0 <= i <= |all|
      invariant cities == Locations(all[..i])
      invariant years == Years(all[..i], cal)
      invariant forall k :: 0 <= k < i ==> !BadDateAt(all, k, cal)
    {
      var s := all[i];
      assert all[..i + 1][..i] == all[..i];
      if Filled(s.location) {
        cities := cities + [s.location.value];
      }
      if Filled(s.date) {
        match cal.parse(s.date.value)
        case None =>
          assert BadDateAt(all, i, cal);
          return DateException(s.date.value);
        case Some(t) =>
          years := years + [cal.yearOf(t)];
      }
      i := i + 1;
    }
    assert all[..i] == all;
    var speciesList: seq<string> := [];
    i := 0;
    while i < |all|
      invariant 0 <= i <= |all|
      invariant speciesList == SpeciesNames(all[..i])
    {
      assert all[..i + 1][..i] == all[..i];
      if Filled(all[i].species) {
        speciesList := speciesList + [all[i].species.value];
      }
      i := i + 1;
    }
    assert all[..i] == all;
    StrLessIsStrictTotalOrder();
    assert StrictTotalOrder(IntLess);
    var sortedCities := SortUnique(cities, StrLess);
    var sortedYears := SortUnique(years, IntLess);
    var sortedSpecies := SortUnique(speciesList, StrLess);
    forall c ensures c in sortedCities <==> exists j :: 0 <= j < |all| && Filled(all[j].location) && all[j].location.value == c {
      LocationsMembers(all, c);
    }
    forall c ensures c in sortedSpecies <==> exists j :: 0 <= j < |all| && Filled(all[j].species) && all[j].species.value == c {
      SpeciesNamesMembers(all, c);
    }
    r := Done(Options(sortedCities, sortedYears, sortedSpecies));
  }

  // ================================================================ selection

  /** `$_GET['city'] ?? ($cities[0] ?? null)`. */
  function SelectedCity(query: Option<string>, cities: seq<string>): (r: Option<string>)
    ensures query.Some? ==> r == query
    ensures query.None? ==> (r.Some? <==> cities != []) && (r.Some? ==> r.value == cities[0])
  {
    if query.Some? then query else if cities != [] then Some(cities[0]) else None
  }

  /** `isset($_GET['year']) ? (int)$_GET['year'] : (end($years) ?: null)`; the
      query value arrives already cast to int. A last year of 0 is falsy. */
  function SelectedYear(query: Option<int>, years: seq<int>): (r: Option<int>)
    ensures query.Some? ==> r == query
    ensures query.None? && r.Some? ==> r.value in years && r.value != 0 && r.value == years[|years| - 1]
    ensures query.None? && r.None? ==> years == [] || years[|years| - 1] == 0
  {
    if query.Some? then query
    else if years != [] && years[|years| - 1] != 0 then Some(years[|years| - 1])
    else None
  }

  /** Without a query the selected city is the alphabetically first city and
      the selected year the latest year (unless that year is 0). */
  lemma DefaultSelection(cities: seq<string>, years: seq<int>)
    requires StrictlySorted(cities, StrLess) && StrictlySorted(years, IntLess)
    ensures cities != [] ==>
      (SelectedCity(None, cities).Some? &&
       forall c :: c in cities ==> c == SelectedCity(None, cities).value || StrLess(SelectedCity(None, cities).value, c))
    ensures cities == [] ==> SelectedCity(None, cities).None?
    ensures years != [] && years[|years| - 1] != 0 ==>
      (SelectedYear(None, years).Some? && forall y :: y in years ==> y <= SelectedYear(None, years).value)
  {
    if cities != [] {
      HeadIsLeast(cities, StrLess);
    }
    if years != [] {
      forall y | y in years ensures y <= years[|years| - 1] {
        var i :| 0 <= i < |years| && years[i] == y;
        assert i == |years| - 1 || IntLess(years[i], years[|years| - 1]);
      }
    }
  }

  // ================================================================ monthly histogram

  /** A record the histogram loop reaches the `new DateTime` call for: non-empty
      location and date, location equal to the city, species equal to a
      non-empty species filter. */
  predicate Candidate(s: Sighting, city: string, species: string)
  {
    && Filled(s.location) && Filled(s.date)
    && s.location.value == city
    && (species == "" || (s.species.Some? && s.species.value == species))
  }

  /** A candidate that parses and falls in `year` and month `m`. */
  predicate CountsFor(s: Sighting, city: string, year: int, species: string, cal: Calendar, m: int)
  {
    Candidate(s, city, species) && cal.parse(s.date.value).Some? &&
    cal.yearOf(cal.parse(s.date.value).value) == year && cal.monthOf(cal.parse(s.date.value).value) == m
  }

  /** The number of records bucket `m` receives. */
  function MonthTally(xs: seq<Sighting>, city: string, year: int, species: string, cal: Calendar, m: int): nat
  {
    if xs == [] then 0
    else MonthTally(xs[..|xs| - 1], city, year, species, cal, m) +
         (if CountsFor(xs[|xs| - 1], city, year, species, cal, m) then 1 else 0)
  }

  /** The twelve buckets the histogram should hold, bucket `m` at index `m - 1`. */
  function Histogram(xs: seq<Sighting>, city: string, year: int, species: string, cal: Calendar): (h: seq<nat>)
    ensures |h| == 12
  {
    seq(12, k => MonthTally(xs, city, year, species, cal, k + 1))
  }

  /** The histogram is computed only when both selections are truthy. */
  predicate HistogramEnabled(city: Option<string>, year: Option<int>)
  {
    city.Some? && PhpTruthy(city.value) && year.Some? && year.value != 0
  }

  /** The histogram block of `index` (`$monthlyCounts`, a 12-slot array with
      month `m` at index `m - 1`). Its `new DateTime` is not guarded. */
  method MonthlyCounts(all: seq<Sighting>, city: Option<string>, year: Option<int>, species: string, cal: Calendar)
    returns (r: Outcome<seq<nat>>)
    ensures r.Done? ==> |r.value| == 12
    ensures !HistogramEnabled(city, year) ==> r.Done? && forall k :: 0 <= k < 12 ==> r.value[k] == 0
    ensures HistogramEnabled(city, year) ==>
      (r.DateException? <==> exists j :: 0 <= j < |all| && Candidate(all[j], city.value, species) && cal.parse(all[j].date.value).None?)
    ensures HistogramEnabled(city, year) && r.Done? ==> r.value == Histogram(all, city.value, year.value, species, cal)
  {
    var counts := new nat[12](_ => 0);
    if !HistogramEnabled(city, year) {
      return Done(counts[..]);
    }
    var c, y := city.value, year.value;
    var i := 0;
    while i < |all|
      invariant 0 <= i <= |all|
      invariant forall k :: 0 <= k < 12 ==> counts[k] == MonthTally(all[..i], c, y, species, cal, k + 1)
      invariant forall j :: 0 <= j < i && Candidate(all[j], c, species) ==> cal.parse(all[j].date.value).Some?
    {
      var s := all[i];
      assert all[..i + 1][..i] == all[..i];
      if !Filled(s.location) || !Filled(s.date) || s.location.value != c {
        i := i + 1;
        continue;
      }
      if species != "" && (s.species.None? || s.species.value != species) {
        i := i + 1;
        continue;
      }
      match cal.parse(s.date.value)
      case None =>
        return DateException(s.date.value);
      case Some(t) =>
        var ty, tm := cal.yearOf(t), cal.monthOf(t);
        if ty == y && 1 <= tm <= 12 {
          counts[tm - 1] := counts[tm - 1] + 1;
        }
      i := i + 1;
    }
    assert all[..i] == all;
    r := Done(counts[..]);
  }

  function Sum(s: seq<nat>): nat
  {
    if s == [] then 0 else Sum(s[..|s| - 1]) + s[|s| - 1]
  }

  /** Raising one entry by one raises the sum by one. */
  lemma {:induction false} SumBump(a: seq<nat>, b: seq<nat>, m: int)
    requires |a| == |b| && 0 <= m < |a|
    requires b[m] == a[m] + 1
    requires forall k :: 0 <= k < |a| && k != m ==> b[k] == a[k]
    ensures Sum(b) == Sum(a) + 1
  {
    var n := |a| - 1;
    if m == n {
      assert a[..n] == b[..n];
    } else {
      SumBump(a[..n], b[..n], m);
    }
  }

  lemma {:induction false} SumOfZeros(s: seq<nat>)
    requires forall k :: 0 <= k < |s| ==> s[k] == 0
    ensures Sum(s) == 0
  {
    if s != [] {
      SumOfZeros(s[..|s| - 1]);
    }
  }

  /** The number of candidates in the selected year whose month is 1..12. */
  function YearTally(xs: seq<Sighting>, city: string, year: int, species: string, cal: Calendar): nat
  {
    if xs == [] then 0
    else
      var s := xs[|xs| - 1];
      YearTally(xs[..|xs| - 1], city, year, species, cal) +
        (if Candidate(s, city, species) && cal.parse(s.date.value).Some? &&
            cal.yearOf(cal.parse(s.date.value).value) == year &&
            1 <= cal.monthOf(cal.parse(s.date.value).value) <= 12 then 1 else 0)
  }

  /** The number of candidates. */
  function CandidateTally(xs: seq<Sighting>, city: string, species: string): nat
  {
    if xs == [] then 0
    else CandidateTally(xs[..|xs| - 1], city, species) + (if Candidate(xs[|xs| - 1], city, species) then 1 else 0)
  }

  /** Each record lands in at most one bucket: the buckets add up to the
      records counted for the year, which is at most the number of candidates. */
  lemma {:induction false} HistogramSum(xs: seq<Sighting>, city: string, year: int, species: string, cal: Calendar)
    ensures Sum(Histogram(xs, city, year, species, cal)) == YearTally(xs, city, year, species, cal)
    ensures YearTally(xs, city, year, species, cal) <= CandidateTally(xs, city, species) <= |xs|
  {
    var h := Histogram(xs, city, year, species, cal);
    if xs == [] {
      SumOfZeros(h);
    } else {
      var init := xs[..|xs| - 1];
      var s := xs[|xs| - 1];
      HistogramSum(init, city, year, species, cal);
      var g := Histogram(init, city, year, species, cal);
      if Candidate(s, city, species) && cal.parse(s.date.value).Some? &&
         cal.yearOf(cal.parse(s.date.value).value) == year &&
         1 <= cal.monthOf(cal.parse(s.date.value).value) <= 12 {
        var m := cal.monthOf(cal.parse(s.date.value).value);
        SumBump(g, h, m - 1);
      } else {
        assert h == g;
      }
    }
  }

  /** The worked example: two Marsh tick records in Leeds, 1 March and 15 July
      2024, give one sighting in buckets 3 and 7 and none elsewhere. */
  lemma LeedsExample(cal: Calendar, march: Timestamp, july: Timestamp)
    requires cal.parse("2024-03-01") == Some(march) && cal.yearOf(march) == 2024 && cal.monthOf(march) == 3
    requires cal.parse("2024-07-15") == Some(july) && cal.yearOf(july) == 2024 && cal.monthOf(july) == 7
    ensures var xs := [
        Sighting(Some("2024-03-01"), Some("Leeds"), Some("Marsh tick"), None, None, None, None),
        Sighting(Some("2024-07-15"), Some("Leeds"), Some("Marsh tick"), None, None, None, None)];
      Histogram(xs, "Leeds", 2024, "", cal) == [0, 0, 1, 0, 0, 0, 1, 0, 0, 0, 0, 0]
  {
    var a := Sighting(Some("2024-03-01"), Some("Leeds"), Some("Marsh tick"), None, None, None, None);
    var b := Sighting(Some("2024-07-15"), Some("Leeds"), Some("Marsh tick"), None, None, None, None);
    var xs := [a, b];
    assert xs[..1] == [a] && [a][..0] == [];
    var h := Histogram(xs, "Leeds", 2024, "", cal);
    forall k | 0 <= k < 12 ensures h[k] == [0, 0, 1, 0, 0, 0, 1, 0, 0, 0, 0, 0][k] {
      var m := k + 1;
      assert MonthTally([a], "Leeds", 2024, "", cal, m) == (if m == 3 then 1 else 0);
      assert MonthTally(xs, "Leeds", 2024, "", cal, m) ==
        MonthTally([a], "Leeds", 2024, "", cal, m) + (if m == 7 then 1 else 0);
    }
  }

  // ================================================================ per-species statistics

  /** One entry of `$cityCounts`, an ordered array keyed by city. */
  datatype CityCount = CityCount(city: string, count: nat)

  function Cities(entries: seq<CityCount>): (r: seq<string>)
    ensures |r| == |entries| && forall i :: 0 <= i < |entries| ==> r[i] == entries[i].city
  {
    seq(|entries|, i requires 0 <= i < |entries| => entries[i].city)
  }

  /** The distinct elements of `xs` in order of first occurrence (the key order of a PHP array). */
  function FirstOccurrences(xs: seq<string>): (r: seq<string>)
    ensures forall c :: c in r <==> c in xs
    ensures forall i, j :: 0 <= i < j < |r| ==> r[i] != r[j]
  {
    if xs == [] then []
    else
      var init := xs[..|xs| - 1];
      FirstOccurrences(init) + (if xs[|xs| - 1] in init then [] else [xs[|xs| - 1]])
  }

  /** The keys come in the order their cities are first seen. */
  lemma {:induction false} FirstOccurrencesInOrder(xs: seq<string>)
    ensures forall i, j :: 0 <= i < j < |FirstOccurrences(xs)| ==>
      Rank(xs, FirstOccurrences(xs)[i]) < Rank(xs, FirstOccurrences(xs)[j])
  {
    if xs != [] {
      var init := xs[..|xs| - 1];
      var c := xs[|xs| - 1];
      FirstOccurrencesInOrder(init);
      RankAppend(init, c);
      assert init + [c] == xs;
      var before := FirstOccurrences(init);
      var r := FirstOccurrences(xs);
      forall i, j | 0 <= i < j < |r| ensures Rank(xs, r[i]) < Rank(xs, r[j]) {
        assert r[i] == before[i] && before[i] in init;
        assert Rank(xs, r[i]) == Rank(init, r[i]) < |init|;
        if j < |before| {
          assert r[j] == before[j] && before[j] in init;
          assert Rank(xs, r[j]) == Rank(init, r[j]);
          assert Rank(init, before[i]) < Rank(init, before[j]);
        } else {
          assert r[j] == c && c !in init;
          assert Rank(xs, r[j]) == |init|;
        }
      }
    }
  }

  /** The number of times `c` occurs in `xs`. */
  function Occurrences(xs: seq<string>, c: string): nat
  {
    if xs == [] then 0
    else Occurrences(xs[..|xs| - 1], c) + (if xs[|xs| - 1] == c then 1 else 0)
  }

  lemma FirstOccurrencesAppend(xs: seq<string>, c: string)
    ensures FirstOccurrences(xs + [c]) == FirstOccurrences(xs) + (if c in xs then [] else [c])
  {
    assert (xs + [c])[..|xs|] == xs;
  }

  lemma OccurrencesAppend(xs: seq<string>, c: string)
    ensures forall e :: Occurrences(xs + [c], e) == Occurrences(xs, e) + (if c == e then 1 else 0)
  {
    assert (xs + [c])[..|xs|] == xs;
  }

  lemma {:induction false} OccurrencesAbsent(xs: seq<string>, c: string)
    requires c !in xs
    ensures Occurrences(xs, c) == 0
  {
    if xs != [] {
      OccurrencesAbsent(xs[..|xs| - 1], c);
    }
  }

  /** The position of `city` among the keys, or `|entries|` when absent. */
  method FindCity(entries: seq<CityCount>, city: string) returns (k: nat)
    ensures k <= |entries|
    ensures k < |entries| ==> entries[k].city == city
    ensures k == |entries| ==> city !in Cities(entries)
  {
    k := 0;
    while k < |entries| && entries[k].city != city
      invariant 0 <= k <= |entries|
      invariant forall j :: 0 <= j < k ==> entries[j].city != city
    {
      k := k + 1;
    }
  }

  /** `$cityCounts` is the tally of the location list `seen`. */
  predicate Tallies(entries: seq<CityCount>, seen: seq<string>)
  {
    && Cities(entries) == FirstOccurrences(seen)
    && forall k :: 0 <= k < |entries| ==> entries[k].count == Occurrences(seen, entries[k].city)
  }

  /** One `$cityCounts[$city] = ($cityCounts[$city] ?? 0) + 1`. */
  method AddCity(entries: seq<CityCount>, ghost seen: seq<string>, c: string) returns (updated: seq<CityCount>)
    requires Tallies(entries, seen)
    ensures Tallies(updated, seen + [c])
  {
    FirstOccurrencesAppend(seen, c);
    OccurrencesAppend(seen, c);
    var k := FindCity(entries, c);
    if k < |entries| {
      assert Cities(entries)[k] == c;
      assert c in seen;
      updated := entries[k := CityCount(c, entries[k].count + 1)];
      assert Cities(updated) == Cities(entries);
      forall j | 0 <= j < |updated|
        ensures updated[j].count == Occurrences(seen + [c], updated[j].city)
      {
        if j != k {
          assert Cities(entries)[j] != Cities(entries)[k];
        }
      }
    } else {
      assert c !in seen;
      OccurrencesAbsent(seen, c);
      updated := entries + [CityCount(c, 1)];
      assert Cities(updated) == Cities(entries) + [c];
      forall j | 0 <= j < |updated|
        ensures updated[j].count == Occurrences(seen + [c], updated[j].city)
      {
        if j < |entries| {
          assert Cities(entries)[j] in seen;
        }
      }
    }
  }

  /** A record the month count of the per-species loop takes: a non-empty
      date that parses, in month `m`. Unparseable dates are caught and skipped. */
  predicate DatedIn(s: Sighting, cal: Calendar, m: int)
  {
    Filled(s.date) && cal.parse(s.date.value).Some? && cal.monthOf(cal.parse(s.date.value).value) == m
  }

  /** The number of records with a parseable date in month `m`, any year. */
  function MonthOfYearTally(xs: seq<Sighting>, cal: Calendar, m: int): nat
  {
    if xs == [] then 0
    else MonthOfYearTally(xs[..|xs| - 1], cal, m) + (if DatedIn(xs[|xs| - 1], cal, m) then 1 else 0)
  }

  /** `$monthCounts` of one species, month `m` at index `m - 1`. */
  function MonthBuckets(xs: seq<Sighting>, cal: Calendar): (h: seq<nat>)
    ensures |h| == 12
  {
    seq(12, k => MonthOfYearTally(xs, cal, k + 1))
  }

  /** The month of a record the month count takes, if any. */
  function CountedMonth(s: Sighting, cal: Calendar): (m: Option<int>)
    ensures m.Some? ==> 1 <= m.value <= 12 && DatedIn(s, cal, m.value)
    ensures m.None? ==> forall k :: 1 <= k <= 12 ==> !DatedIn(s, cal, k)
  {
    if Filled(s.date) && cal.parse(s.date.value).Some? && 1 <= cal.monthOf(cal.parse(s.date.value).value) <= 12
    then Some(cal.monthOf(cal.parse(s.date.value).value))
    else None
  }

  /** One more record bumps at most the bucket of its month. */
  lemma MonthBucketsStep(xs: seq<Sighting>, s: Sighting, cal: Calendar)
    ensures MonthBuckets(xs + [s], cal) ==
      (match CountedMonth(s, cal)
       case None => MonthBuckets(xs, cal)
       case Some(m) => MonthBuckets(xs, cal)[m - 1 := MonthBuckets(xs, cal)[m - 1] + 1])
  {
    assert (xs + [s])[..|xs|] == xs;
  }

  /** One more record appends its location, when it has one. */
  lemma LocationsStep(xs: seq<Sighting>, s: Sighting)
    ensures Locations(xs + [s]) == Locations(xs) + (if Filled(s.location) then [s.location.value] else [])
  {
    assert (xs + [s])[..|xs|] == xs;
  }

  /** The city step of the loop body: count the record's location, if any. */
  method CountLocation(entries: seq<CityCount>, ghost seen: seq<string>, s: Sighting) returns (updated: seq<CityCount>)
    requires Tallies(entries, seen)
    ensures Tallies(updated, seen + (if Filled(s.location) then [s.location.value] else []))
  {
    if Filled(s.location) {
      updated := AddCity(entries, seen, s.location.value);
    } else {
      assert seen + [] == seen;
      updated := entries;
    }
  }

  /** The month step of the loop body: bump the bucket of the record's
      month when its date is non-empty and parses. */
  method CountMonth(months: seq<nat>, s: Sighting, cal: Calendar) returns (updated: seq<nat>)
    requires |months| == 12
    ensures updated == (match CountedMonth(s, cal)
                        case None => months
                        case Some(m) => months[m - 1 := months[m - 1] + 1])
  {
    updated := months;
    if Filled(s.date) {
      match cal.parse(s.date.value)
      case None =>
      case Some(t) =>
        var m := cal.monthOf(t);
        if 1 <= m <= 12 {
          updated := months[m - 1 := months[m - 1] + 1];
        }
    }
  }

  /** The loop over one species' sightings: the city tally and the month
      tally (across all years) in one pass. */
  method TallySpecies(sightings: seq<Sighting>, cal: Calendar) returns (entries: seq<CityCount>, months: seq<nat>)
    ensures Tallies(entries, Locations(sightings))
    ensures months == MonthBuckets(sightings, cal)
  {
    entries := [];
    months := seq(12, _ => 0);
    for i := 0 to |sightings|
      invariant Tallies(entries, Locations(sightings[..i]))
      invariant months == MonthBuckets(sightings[..i], cal)
    {
      var s := sightings[i];
      assert sightings[..i + 1] == sightings[..i] + [s];
      LocationsStep(sightings[..i], s);
      MonthBucketsStep(sightings[..i], s, cal);
      entries := CountLocation(entries, Locations(sightings[..i]), s);
      months := CountMonth(months, s, cal);
    }
    assert sightings[..|sightings|] == sightings;
  }

  // ---------------------------------------------------------------- top cities

  /** Entry `i` comes before entry `j` in the stable descending `arsort`:
      a higher count, or an equal count and an earlier key. */
  predicate Outranks(entries: seq<CityCount>, i: int, j: int)
    requires 0 <= i < |entries| && 0 <= j < |entries|
  {
    entries[i].count > entries[j].count || (entries[i].count == entries[j].count && i < j)
  }

  /** `picks` are the first `min(2, |entries|)` positions of the stable
      descending order: distinct, and each outranks every entry not yet picked. */
  predicate TopPicks(entries: seq<CityCount>, picks: seq<nat>)
  {
    && |picks| == (if |entries| < 2 then |entries| else 2)
    && (forall k :: 0 <= k < |picks| ==> picks[k] < |entries|)
    && (|picks| == 2 ==> picks[0] != picks[1])
    && (forall k, j :: 0 <= k < |picks| && 0 <= j < |entries| && j !in picks[..k + 1] ==>
          Outranks(entries, picks[k], j))
  }

  /** `arsort($cityCounts)` followed by `array_slice(array_keys(...), 0, 2)`,
      as one scan that keeps the best and the second best entry. */
  method TopCities(entries: seq<CityCount>) returns (top: seq<string>, picks: seq<nat>)
    ensures TopPicks(entries, picks)
    ensures |top| == |picks| && forall k :: 0 <= k < |top| ==> top[k] == entries[picks[k]].city
  {
    var b0, b1 := -1, -1;
    for i := 0 to |entries|
      invariant i == 0 ==> b0 == -1
      invariant i > 0 ==> 0 <= b0 < i && forall j :: 0 <= j < i && j != b0 ==> Outranks(entries, b0, j)
      invariant i <= 1 ==> b1 == -1
      invariant i > 1 ==> (0 <= b1 < i && b1 != b0 &&
        forall j :: 0 <= j < i && j != b0 && j != b1 ==> Outranks(entries, b1, j))
    {
      if b0 < 0 || entries[i].count > entries[b0].count {
        forall j | 0 <= j < i + 1 && j != i ensures Outranks(entries, i, j) {
          assert j == b0 || Outranks(entries, b0, j);
        }
        b1, b0 := b0, i;
      } else {
        assert Outranks(entries, b0, i);
        if b1 < 0 || entries[i].count > entries[b1].count {
          forall j | 0 <= j < i + 1 && j != b0 && j != i ensures Outranks(entries, i, j) {
            assert j == b1 || Outranks(entries, b1, j);
          }
          b1 := i;
        } else {
          assert Outranks(entries, b1, i);
        }
      }
    }
    if |entries| == 0 {
      picks := [];
    } else if |entries| == 1 {
      picks := [b0];
    } else {
      picks := [b0, b1];
    }
    top := seq(|picks|, k requires 0 <= k < |picks| => entries[picks[k]].city);
  }

  /** The position of `c` in `xs`, or `|xs|` when absent. */
  function Rank(xs: seq<string>, c: string): (r: nat)
    ensures r <= |xs|
    ensures r < |xs| ==> xs[r] == c
  {
    if xs == [] then 0 else if xs[0] == c then 0 else 1 + Rank(xs[1..], c)
  }

  /** Appending an element moves no rank, and a new element ranks last. */
  lemma {:induction false} RankAppend(xs: seq<string>, c: string)
    ensures forall a :: a in xs ==> Rank(xs + [c], a) == Rank(xs, a) < |xs|
    ensures c !in xs ==> Rank(xs + [c], c) == |xs|
  {
    if xs != [] {
      assert (xs + [c])[1..] == xs[1..] + [c];
      RankAppend(xs[1..], c);
    }
  }

  lemma {:induction false} RankOfDistinct(xs: seq<string>, i: int)
    requires 0 <= i < |xs|
    requires forall a, b :: 0 <= a < b < |xs| ==> xs[a] != xs[b]
    ensures Rank(xs, xs[i]) == i
  {
    if i > 0 {
      assert xs[0] != xs[i];
      assert xs[1..][i - 1] == xs[i];
      RankOfDistinct(xs[1..], i - 1);
    }
  }

  /** City `a` comes before city `b` in the sorted tally of `locs`: more
      sightings, or as many and first seen earlier. */
  predicate CityOutranks(locs: seq<string>, a: string, b: string)
  {
    Occurrences(locs, a) > Occurrences(locs, b) ||
    (Occurrences(locs, a) == Occurrences(locs, b) && Rank(FirstOccurrences(locs), a) < Rank(FirstOccurrences(locs), b))
  }

  /** `top` lists the two most frequent cities of `locs` (fewer if there are
      fewer cities), ties going to the city seen first. */
  predicate TopCitiesOf(top: seq<string>, locs: seq<string>)
  {
    var n := |FirstOccurrences(locs)|;
    && |top| == (if n < 2 then n else 2)
    && (forall k :: 0 <= k < |top| ==> top[k] in locs)
    && (|top| == 2 ==> top[0] != top[1])
    && (forall k, c :: 0 <= k < |top| && c in locs && c !in top[..k + 1] ==> CityOutranks(locs, top[k], c))
  }

  /** The picks of a tally, read back as city names, are the top cities. */
  lemma TopPicksAreTopCities(entries: seq<CityCount>, locs: seq<string>, picks: seq<nat>, top: seq<string>)
    requires Tallies(entries, locs) && TopPicks(entries, picks)
    requires |top| == |picks| && forall k :: 0 <= k < |top| ==> top[k] == entries[picks[k]].city
    ensures TopCitiesOf(top, locs)
  {
    var firsts := FirstOccurrences(locs);
    assert |firsts| == |entries|;
    forall k | 0 <= k < |top| ensures top[k] in locs {
      assert top[k] == Cities(entries)[picks[k]];
      assert top[k] in firsts;
    }
    if |top| == 2 {
      assert Cities(entries)[picks[0]] != Cities(entries)[picks[1]];
    }
    forall k, c | 0 <= k < |top| && c in locs && c !in top[..k + 1]
      ensures CityOutranks(locs, top[k], c)
    {
      assert c in firsts;
      var j :| 0 <= j < |firsts| && firsts[j] == c;
      assert entries[j].city == c;
      forall q | 0 <= q < k + 1 ensures picks[q] != j {
        assert top[..k + 1][q] == top[q];
      }
      assert j !in picks[..k + 1];
      assert Outranks(entries, picks[k], j);
      RankOfDistinct(firsts, j);
      RankOfDistinct(firsts, picks[k]);
      assert firsts[picks[k]] == top[k];
    }
  }

  /** No two cities outrank each other. */
  lemma CityOutranksAsymmetric(locs: seq<string>, a: string, b: string)
    ensures !(CityOutranks(locs, a, b) && CityOutranks(locs, b, a))
  {
  }

  /** The top cities are determined by the locations alone. */
  lemma TopCitiesUnique(top1: seq<string>, top2: seq<string>, locs: seq<string>)
    requires TopCitiesOf(top1, locs) && TopCitiesOf(top2, locs)
    ensures top1 == top2
  {
    if |top1| > 0 {
      var a, b := top1[0], top2[0];
      var first1, first2 := top1[..1], top2[..1];
      assert first1 == [a] && first2 == [b];
      CityOutranksAsymmetric(locs, a, b);
      assert a in locs && b in locs;
      assert a != b ==> b !in first1 && a !in first2;
      assert a != b ==> CityOutranks(locs, a, b) && CityOutranks(locs, b, a);
      if |top1| == 2 {
        var c, d := top1[1], top2[1];
        var two1, two2 := top1[..2], top2[..2];
        assert two1 == [a, c] && two2 == [b, d];
        CityOutranksAsymmetric(locs, c, d);
        assert c in locs && d in locs;
        assert c != d ==> d !in two1 && c !in two2;
        assert c != d ==> CityOutranks(locs, c, d) && CityOutranks(locs, d, c);
        assert top1 == [a, c] && top2 == [b, d];
      } else {
        assert top1 == [a] && top2 == [b];
      }
    }
  }

  /** The first top city has at least as many sightings as any city. */
  lemma TopCityIsMostFrequent(top: seq<string>, locs: seq<string>, c: string)
    requires TopCitiesOf(top, locs) && c in locs
    ensures |top| > 0 && Occurrences(locs, c) <= Occurrences(locs, top[0])
  {
    assert c in FirstOccurrences(locs);
  }

  // ---------------------------------------------------------------- peak month

  /** Month `m` is the peak of `months`: a non-zero maximum, and the first
      month that attains it. */
  predicate IsPeak(months: seq<nat>, m: int)
    requires |months| == 12
  {
    && 1 <= m <= 12 && months[m - 1] > 0
    && (forall k :: 0 <= k < 12 ==> months[k] <= months[m - 1])
    && (forall k :: 0 <= k < m - 1 ==> months[k] < months[m - 1])
  }

  /** `max($monthCounts) > 0` then `array_keys($monthCounts, max(...), true)[0]`. */
  method PeakMonth(months: seq<nat>) returns (peak: Option<int>)
    requires |months| == 12
    ensures peak.None? <==> forall k :: 0 <= k < 12 ==> months[k] == 0
    ensures peak.Some? ==> IsPeak(months, peak.value)
  {
    var most := months[0];
    for k := 1 to 12
      invariant forall j :: 0 <= j < k ==> months[j] <= most
      invariant exists j :: 0 <= j < k && months[j] == most
    {
      if months[k] > most {
        most := months[k];
      }
    }
    if most == 0 {
      return None;
    }
    var m := 0;
    while months[m] != most
      invariant 0 <= m < 12
      invariant forall j :: 0 <= j < m ==> months[j] != most
      decreases 12 - m
    {
      m := m + 1;
    }
    peak := Some(m + 1);
  }

  /** `$monthNames`, month `m` at index `m - 1`. */
  const MonthNames: seq<string> := ["January", "February", "March", "April", "May", "June",
    "July", "August", "September", "October", "November", "December"]

  /** `['topCities' => ..., 'peakMonth' => ...]` for one species. */
  datatype SpeciesStat = SpeciesStat(topCities: seq<string>, peakMonth: Option<string>)

  /** What a species card should show for the records of that species. */
  ghost predicate DescribesSpecies(stat: SpeciesStat, sightings: seq<Sighting>, cal: Calendar)
  {
    var months := MonthBuckets(sightings, cal);
    && TopCitiesOf(stat.topCities, Locations(sightings))
    && (stat.peakMonth.None? <==> forall k :: 0 <= k < 12 ==> months[k] == 0)
    && (stat.peakMonth.Some? ==> exists m :: IsPeak(months, m) && stat.peakMonth.value == MonthNames[m - 1])
  }

  /** The body of the per-species loop of `index`; it never throws. */
  method StatsFor(sightings: seq<Sighting>, cal: Calendar) returns (stat: SpeciesStat)
    ensures DescribesSpecies(stat, sightings, cal)
  {
    var entries, months := TallySpecies(sightings, cal);
    var top, picks := TopCities(entries);
    TopPicksAreTopCities(entries, Locations(sightings), picks, top);
    var peak := PeakMonth(months);
    var name := if peak.Some? then Some(MonthNames[peak.value - 1]) else None;
    stat := SpeciesStat(top, name);
  }

  // ================================================================ the page

  /** `$interestingSpecies`, in card order. */
  const InterestingSpecies: seq<string> :=
    ["Passerine tick", "Fox/badger tick", "Southern rodent tick", "Marsh tick", "Tree-hole tick"]

  /** The query-string parameters; `year` arrives already cast with `(int)`. */
  datatype Query = Query(city: Option<string>, year: Option<int>, species: Option<string>)

  /** The data `index` hands to the view. */
  datatype Dashboard = Dashboard(
    options: Options,
    selectedCity: Option<string>,
    selectedYear: Option<int>,
    selectedSpecies: string,
    monthlyCounts: seq<nat>,
    speciesStats: seq<(string, SpeciesStat)>)

  /** Once no record has a bad date, every histogram candidate parses. */
  lemma CandidatesParse(all: seq<Sighting>, city: string, species: string, cal: Calendar)
    requires forall j :: !BadDateAt(all, j, cal)
    ensures forall j :: 0 <= j < |all| && Candidate(all[j], city, species) ==> cal.parse(all[j].date.value).Some?
  {
    forall j | 0 <= j < |all| && Candidate(all[j], city, species) ensures cal.parse(all[j].date.value).Some? {
      assert !BadDateAt(all, j, cal);
    }
  }

  /** `index` over the records `getAll` returned; `endpoint` answers the
      per-species requests `getBySpecies` makes. The only exception is the
      one the option loop raises on an unparseable date; by the time the
      histogram parses dates again they are all known to parse. */
  method Index(all: seq<Sighting>, query: Query, endpoint: string -> seq<Sighting>, cal: Calendar)
    returns (r: Outcome<Dashboard>)
    ensures r.DateException? <==> exists j :: BadDateAt(all, j, cal)
    ensures r.Done? ==>
      var d := r.value;
      && StrictlySorted(d.options.cities, StrLess)
      && StrictlySorted(d.options.years, IntLess)
      && StrictlySorted(d.options.speciesList, StrLess)
      && (forall c :: c in d.options.cities <==>
            exists j :: 0 <= j < |all| && Filled(all[j].location) && all[j].location.value == c)
      && (forall c :: c in d.options.speciesList <==>
            exists j :: 0 <= j < |all| && Filled(all[j].species) && all[j].species.value == c)
      && (forall y :: y in d.options.years <==> y in Years(all, cal))
      && d.selectedCity == SelectedCity(query.city, d.options.cities)
      && d.selectedYear == SelectedYear(query.year, d.options.years)
      && d.selectedSpecies == (if query.species.Some? then query.species.value else "")
      && |d.monthlyCounts| == 12
      && (HistogramEnabled(d.selectedCity, d.selectedYear) ==>
            d.monthlyCounts == Histogram(all, d.selectedCity.value, d.selectedYear.value, d.selectedSpecies, cal))
      && (!HistogramEnabled(d.selectedCity, d.selectedYear) ==> forall k :: 0 <= k < 12 ==> d.monthlyCounts[k] == 0)
      && |d.speciesStats| == |InterestingSpecies|
      && forall k :: 0 <= k < |InterestingSpecies| ==>
           d.speciesStats[k].0 == InterestingSpecies[k] &&
           DescribesSpecies(d.speciesStats[k].1, TickSighting.GetBySpecies(InterestingSpecies[k], endpoint), cal)
  {
    var opts := CollectOptions(all, cal);
    if opts.DateException? {
      return DateException(opts.date);
    }
    var options := opts.value;
    var city := SelectedCity(query.city, options.cities);
    var year := SelectedYear(query.year, options.years);
    var species := if query.species.Some? then query.species.value else "";
    if HistogramEnabled(city, year) {
      CandidatesParse(all, city.value, species, cal);
    }
    var hist := MonthlyCounts(all, city, year, species, cal);
    assert hist.Done?;
    var stats: seq<(string, SpeciesStat)> := [];
    for k := 0 to |InterestingSpecies|
      invariant |stats| == k
      invariant forall q :: 0 <= q < k ==>
        stats[q].0 == InterestingSpecies[q] &&
        DescribesSpecies(stats[q].1, TickSighting.GetBySpecies(InterestingSpecies[q], endpoint), cal)
    {
      var name := InterestingSpecies[k];
      var stat := StatsFor(TickSighting.GetBySpecies(name, endpoint), cal);
      stats := stats + [(name, stat)];
    }
    r := Done(Dashboard(options, city, year, species, hist.value, stats));
  }
}
