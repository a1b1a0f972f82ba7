# TickSight core in Dafny

TickSight UK is a PHP web application, with a small JavaScript front end,
that shows tick sightings across UK cities. It has a map page, an education
dashboard and a form for reporting a sighting. This project models the data
logic at its core and proves properties of it:

- **Sighting filters.** `TickSighting::filter` filters by a
  case-insensitive species and a named relative date range.
  `getByCity` and `getBySpecies` return nothing for an empty argument. The
  map page merges the API records with the normalised user records, then
  applies its own exact species filter and its own date-range filter.
- **User records.** `UserSighting::create` binds a set of parameters, and
  `getAllNormalised` reshapes the stored rows into the record shape of
  the API.
- **Education dashboard.** `index` builds three sorted option lists
  (cities, years, species) and a 12-bucket monthly histogram for the
  selected city, year and species. For each of five species it also finds
  the two most frequent cities (a stable descending sort) and the peak
  month.
- **Report form.** The `submit` pipeline trims the posted fields,
  checks the required fields, checks the date and time formats, rejects a
  moment in the future, canonicalises the city against an allow list,
  sanitises the name of the uploaded file, and then either re-shows the
  form with errors or saves the record.
- **Map page, client side** (`js/map.js`). It gives each sighting a
  severity from its species and a colour from the severity. It applies the
  severity filter, groups the sightings by city, and makes one marker per
  sighting. Clicking a marker shows a per-city timeline: the ten newest
  dated sightings.

Modules:

- `Base`: the sighting record, PHP and JS truthiness, `trim`,
  order-preserving filtering and string order.
- `DateRanges`: the shared range tokens and their windows.
- `TickSighting`, `UserSighting`, `MapController`, `Education`, `Report`:
  one module per PHP file.
- `MapWidget`: `js/map.js`.

The modelling choices:

- **Pure code and loops.** PHP code built from `array_filter` and
  `array_map` is modelled as functions. The loops of `EducationController`,
  the allow-list search and the `forEach` loops of `map.js` are modelled as
  methods with loop invariants, each proved against a specification
  function.
- **Exceptions.** An unguarded `new DateTime` that can throw becomes an
  `Outcome` result.
- **Parameters for what the model cannot see.** These are passed in as
  values:
  - HTTP requests and the database;
  - the clock, `time()` and `random_bytes`;
  - whether `move_uploaded_file` succeeds;
  - date parsing and formatting (a `Calendar` or `DateFormats` value of
    functions).

## Model

| member | source | states |
|---|---|---|
| Base.TrimEnds | Models/TickSighting.php:64-65 | `trim` leaves no space, tab, newline, carriage return, NUL or vertical tab at either end, returns a contiguous piece of its input, and everything it cuts before and after that piece is one of those characters |
| Base.Trim | Controllers/ReportController.php:41-45 | `trim` never lengthens its input |
| Base.TrimIdempotent | Controllers/ReportController.php:41-45 | trimming an already trimmed field changes nothing |
| Base.Select | Models/TickSighting.php:114-160 | `array_values(array_filter(...))` keeps exactly the elements that pass, and never more elements than it was given |
| Base.SelectIsSubsequence | Models/TickSighting.php:160 | the reindexed filter result keeps the survivors in their original order |
| Base.SelectCounts | Models/TickSighting.php:114-160 | the filter keeps every occurrence of an element that passes, and no occurrence of one that does not |
| Base.SelectIdempotent | Controllers/MapController.php:53-56 | filtering twice with the same predicate is filtering once |
| Base.SelectThenSelect | Controllers/MapController.php:49-63 | two filters in a row equal one filter on both predicates |
| Base.StrLessIsStrictTotalOrder | Controllers/EducationController.php:46 | the byte-wise string order `sort` applies is irreflexive, transitive and total |
| Base.StrictlySortedUnique | Controllers/EducationController.php:45-49 | a strictly ascending list is determined by its elements, so any correct `sort(array_unique(...))` gives the same list |
| DateRanges.WindowFor | Models/TickSighting.php:73-111 | exactly the seven tokens select a window; each window has a start; exactly the four "last N" tokens leave the end open |
| DateRanges.TwoSidedWindowsAreProper | Models/TickSighting.php:90-106 | each two-sided window (6-12 months, 1-5 years, 5-15 years) starts strictly before it ends |
| TickSighting.TrimOpt | Models/TickSighting.php:64-65 | a null argument stays null; any other argument is trimmed |
| TickSighting.SpeciesMatches | Models/TickSighting.php:118-130 | a record without a species never matches; a match means both species are equal once trimmed and case-folded |
| TickSighting.Keeps | Models/TickSighting.php:114-157 | without a species argument and a window every record is kept; a kept record has a species when a species was asked for, and passes the date check when a window is active |
| TickSighting.ActiveWindow | Models/TickSighting.php:65-111 | a window is active exactly when the trimmed range argument is one of the seven tokens; null falls into `default` |
| TickSighting.Filter | Models/TickSighting.php:61-161 | a record is kept if and only if it passes the species check (when the trimmed species is non-empty) and the date check (when a window is active) |
| TickSighting.FilterIsSubsequence | Models/TickSighting.php:114-160 | the filtered list is an order-preserving subsequence of the input |
| TickSighting.FilterPassThrough | Models/TickSighting.php:108-110 | with no species (null or blank) and no recognised range, the input comes back unchanged |
| TickSighting.FilterIdempotent | Models/TickSighting.php:61-161 | filtering the result again with the same arguments at the same moment changes nothing |
| TickSighting.FilterBySpecies | Models/TickSighting.php:118-130 | with a set species, every kept record has a species equal to the argument after trimming and case folding |
| TickSighting.FilterByDate | Models/TickSighting.php:132-153 | under an active range, a record is kept if and only if it passes the species check and has a non-empty, parseable date between the inclusive bounds |
| TickSighting.GetByCity | Models/TickSighting.php:164-169 | an empty city gives `[]`; otherwise the endpoint's answer |
| TickSighting.GetBySpecies | Models/TickSighting.php:225-230 | an empty species gives `[]`; otherwise the endpoint's answer |
| TickSighting.EmptyArgumentsMakeNoRequest | Models/TickSighting.php:227-230 | for an empty argument the result does not depend on the endpoint, so no request is made |
| UserSighting.LatinNameOf | Models/UserSighting.php:90-96 | exactly the five listed species have a Latin name |
| UserSighting.StoredRow | Models/UserSighting.php:50-57 | `create` binds date, time, location and species as given; a missing description or image path is bound as NULL |
| UserSighting.JoinDateTime | Models/UserSighting.php:101-109 | the date is null exactly when the row's date is falsy; otherwise it starts with the row's date, followed by `T` and the time when the time is truthy, and by nothing when it is not |
| UserSighting.JoinDateTimeSplits | Models/UserSighting.php:106 | the join loses nothing: splitting at the first `T` gives back the `T`-free date and the time |
| UserSighting.Normalise | Models/UserSighting.php:98-128 | each row becomes a record with source `user`, the joined date, the row's location, species and image path, and the Latin name when the species is in the table |
| UserSighting.GetAllNormalised | Models/UserSighting.php:85-130 | one record per row, in row order |
| UserSighting.InsertLeavesNotNullColumnsUnset | Models/UserSighting.php:31-47 | the INSERT sets neither `severity` nor `created_at`, both NOT NULL without a default in the table `Database/db.php` creates, so the schema refuses every insert `create` makes |
| UserSighting.CompletedInsertIsAccepted | Database/db.php:14-24 | an insert naming the two missing columns as well satisfies every NOT NULL column of the table |
| MapController.FilterBySpecies | Controllers/MapController.php:51-57 | an empty species returns the input; otherwise a record stays if and only if its species is exactly (case-sensitively) the argument |
| MapController.FilterByDateRange | Controllers/MapController.php:70-138 | null, empty and unknown ranges return the input; a known range keeps exactly the records with a non-empty, parseable date inside the window |
| MapController.FilterSightings | Controllers/MapController.php:49-63 | a record is in the result if and only if it passes both the species step and the date step |
| MapController.FilterSightingsIsOneFilter | Controllers/MapController.php:49-63 | the two steps equal one order-preserving filter on both predicates |
| MapController.FilterSightingsNoFilters | Controllers/MapController.php:52-60 | with no species and no recognised range, the list is unchanged |
| MapController.Index | Controllers/MapController.php:11-44 | the page lists exactly the merged API and user records (API first) that pass both filters, in merge order; the three query values default to `''`; the raw rows are passed through |
| MapController.IndexMergeOrder | Controllers/MapController.php:28 | without filters, the page lists every API record and then every normalised user record, each in its own order |
| Education.LocationsMembers | Controllers/EducationController.php:34-37 | a city is collected if and only if some record has it as a non-empty location |
| Education.SpeciesNamesMembers | Controllers/EducationController.php:54-58 | a species is collected if and only if some record has it as a non-empty species |
| Education.SortUnique | Controllers/EducationController.php:45-49 | `sort(array_values(array_unique(...)))` gives a strictly ascending list with exactly the input's elements |
| Education.CollectOptions | Controllers/EducationController.php:34-61 | the option loop throws exactly when some record has a non-empty date that does not parse, and reports the first such date; otherwise it gives the three sorted, duplicate-free option lists with exactly the collected elements |
| Education.SelectedCity | Controllers/EducationController.php:63 | a city in the query is selected as given; without one, the first city of the list, or none when the list is empty |
| Education.SelectedYear | Controllers/EducationController.php:64 | a year in the query is selected as given; without one, the last year of the list unless the list is empty or that year is 0 |
| Education.DefaultSelection | Controllers/EducationController.php:63-64 | without a query, the selected city is the alphabetically first city and the selected year is the latest year (a latest year of 0 selects nothing) |
| Education.MonthlyCounts | Controllers/EducationController.php:67-93 | the histogram is all zeros unless city and year are truthy; otherwise it throws exactly when a candidate record's date does not parse, and else equals the per-month tally of the candidates in the selected year |
| Education.HistogramSum | Controllers/EducationController.php:89-91 | each record lands in at most one bucket: the buckets add up to the records counted for the year, which is at most the number of candidates |
| Education.LeedsExample | Controllers/EducationController.php:67-93 | two Leeds records, dated March and July 2024, fill buckets 3 and 7 with one sighting each and leave the rest at zero |
| Education.CandidatesParse | Controllers/EducationController.php:85 | once the option loop passed, every date the histogram loop parses is known to parse, so that loop cannot throw |
| Education.Histogram | Controllers/EducationController.php:67-93 | the histogram the page shows has twelve buckets, one per month |
| Education.FirstOccurrences | Controllers/EducationController.php:114 | the keys of the tally are the distinct collected cities, each once, in order of first appearance |
| Education.FirstOccurrencesInOrder | Controllers/EducationController.php:114 | the keys come in the order their cities first appear in the location list |
| Education.FindCity | Controllers/EducationController.php:114 | the key lookup finds the city's entry or reports that it is absent |
| Education.AddCity | Controllers/EducationController.php:114 | one increment keeps the tally exact: the keys are the first occurrences and each count is the number of occurrences |
| Education.CountLocation | Controllers/EducationController.php:112-115 | a record with a non-empty location is counted under it; any other record leaves the tally unchanged |
| Education.CountedMonth | Controllers/EducationController.php:118-124 | a record is counted in month `m` exactly when it has a non-empty, parseable date whose month is `m` in 1..12 |
| Education.MonthBuckets | Controllers/EducationController.php:108 | the per-species month tally has twelve buckets |
| Education.CountMonth | Controllers/EducationController.php:118-128 | only the bucket of the record's month goes up by one; unparseable dates are skipped |
| Education.TallySpecies | Controllers/EducationController.php:107-129 | the per-species loop yields the exact city tally of the non-empty locations and the month tally across all years |
| Education.TopCities | Controllers/EducationController.php:132-134 | the picks are the first one or two entries of the stable descending sort of the tally (ties go to the key first inserted) |
| Education.TopPicksAreTopCities | Controllers/EducationController.php:132-134 | read back as names, the picks are the most frequent cities, with ties going to the city seen first |
| Education.TopCitiesUnique | Controllers/EducationController.php:132-134 | the top cities are determined by the location list alone |
| Education.TopCityIsMostFrequent | Controllers/EducationController.php:133-134 | the first top city has at least as many sightings as any city |
| Education.PeakMonth | Controllers/EducationController.php:137-141 | there is no peak month if and only if every bucket is zero; otherwise the peak is the first month holding the maximum |
| Education.StatsFor | Controllers/EducationController.php:104-147 | each species card shows the top cities and the name of the peak month of that species' records; it never throws |
| Education.Index | Controllers/EducationController.php:16-169 | the page aborts exactly when some record has an unparseable non-empty date; otherwise it shows sorted options holding exactly the collected cities, years and species, the selections, the histogram (or zeros), and a card for each of the five species in order |
| Report.ParseTime | Controllers/ReportController.php:74-77 | a time is accepted if it parses as `H:i` or as `H:i:s`; the value is the `H:i` parse when there is one, and the `H:i:s` parse otherwise |
| Report.OldValues | Controllers/ReportController.php:40-46 | a posted field is refilled with its value trimmed (so every refill value is already trimmed), and a field missing from the post is the empty string |
| Report.AsciiLower | Controllers/ReportController.php:125 | `strcasecmp` lowers exactly the ASCII capitals |
| Report.FoldAscii | Controllers/ReportController.php:125 | case folding maps each character on its own and keeps the length |
| Report.FirstMatch | Controllers/ReportController.php:124-129 | a match is an allowed city equal to the location up to case; there is none if and only if no allowed city is equal up to case |
| Report.Canonicalise | Controllers/ReportController.php:122-129 | the loop that stops at the first case-insensitive match returns the canonical city |
| Report.FirstMatchAt | Controllers/ReportController.php:124-128 | the search goes in list order: the first city that matches wins |
| Report.FirstMatchIgnoresCase | Controllers/ReportController.php:125 | locations equal up to case canonicalise alike |
| Report.FirstMatchIdempotent | Controllers/ReportController.php:126 | canonicalising a canonical spelling gives it back |
| Report.CanonicalCityProperties | Controllers/ReportController.php:104-134 | a location is accepted if and only if it equals some allowed city up to case; it is then stored as that allowed city, a fixed point, whatever its case |
| Report.CanonicalCityExamples | Controllers/ReportController.php:105-129 | "nOTTINGHAM" becomes "Nottingham"; "York" is rejected |
| Report.LastIndexOf | Controllers/ReportController.php:148 | the position found holds the separator, and no later position does |
| Report.AfterLast | Controllers/ReportController.php:148 | the part after the last separator contains no separator |
| Report.KeptLength | Controllers/ReportController.php:148 | only the trailing slashes are dropped before taking the basename |
| Report.Basename | Controllers/ReportController.php:148 | the basename contains no `/` |
| Report.Extension | Controllers/ReportController.php:148 | the extension contains neither `.` nor `/` |
| Report.KeepAlnum | Controllers/ReportController.php:149 | stripping keeps only ASCII letters and digits, and keeps every occurrence of each of them |
| Report.KeepAlnumIsSubsequence | Controllers/ReportController.php:149 | the kept letters and digits stay in their original order |
| Report.SafeExtension | Controllers/ReportController.php:149 | a falsy extension (`''` or `'0'`) gives no suffix; any other gives a dot followed by exactly the letters and digits of the extension, in order |
| Report.Decimal | Controllers/ReportController.php:151 | the timestamp is written with decimal digits only |
| Report.Hex | Controllers/ReportController.php:151 | `bin2hex` writes two lower-case hex digits per byte |
| Report.UploadFileName | Controllers/ReportController.php:151 | the stored name is `sighting_`, then the decimal Unix time, then `_`, then the hex encoding of the random bytes, then the safe extension, and nothing else |
| Report.UploadFileNameShape | Controllers/ReportController.php:151-152 | the stored name contains only letters, digits, `_` and `.`, so it cannot leave the upload directory |
| Report.HandleUpload | Controllers/ReportController.php:136-162 | an image path is set exactly for a truthy name with `UPLOAD_ERR_OK` and a successful move, and it is `images/uploads/` followed by the generated name; an error is set exactly for a failed move (the move message) or for any error code other than OK or NO_FILE (the upload message) |
| Report.ValidationErrors | Controllers/ReportController.php:48-134 | the upload error goes under `image` and nothing under `general`; an empty location is required, a non-empty one is an error exactly when it is not an allowed city; an empty map needs date, time and species set and no upload error |
| Report.CheckMoment | Controllers/ReportController.php:68-101 | with both fields present, a date that does not round-trip, a time that parses in neither format, and a valid moment after now are reported; the other keys are untouched |
| Report.RecordFor | Controllers/ReportController.php:171-181 | the saved record carries the trimmed date, time, species and description and the image path, and the canonical allowed city when the location is one |
| Report.Validate | Controllers/ReportController.php:37-162 | steps 1 to 4 leave under each key the message the checks in order assign last; they also give the canonical city and the image path of the upload |
| Report.Submit | Controllers/ReportController.php:35-193 | `create` is called exactly when no error was recorded; on errors the form is re-shown with the trimmed values; a save shows the success banner with an empty form; a failed save shows only the general error |
| Report.SubmitAsWritten | Controllers/ReportController.php:183-188 | as written, a refused insert ends `submit` with an uncaught exception: no page is shown, and the general error is never set |
| Report.RequiredFieldErrors | Controllers/ReportController.php:48-63 | each field left empty after trimming is reported as required under its own key, and only then |
| Report.FutureSetsBoth | Controllers/ReportController.php:97-100 | a moment in the future is reported under both `date` and `time`, and only then do both carry that message |
| Report.NoErrorsIffValid | Controllers/ReportController.php:48-168 | the error map stays empty if and only if all four fields are set, the date round-trips through `Y-m-d`, the time parses, the moment is not after now, the city is allowed, and the upload raised no error |
| Report.SavedRecordNormalises | Controllers/ReportController.php:170-183 | a saved report, read back through `getAllNormalised`, is a user record at an allowed city under its canonical spelling, with its species, that species' Latin name, its image path, and date and time joined by `T` |
| MapWidget.SeverityTable | js/map.js:40-46 | exactly the five mapped species have a severity entry |
| MapWidget.SeverityTableMatchesLatinNames | js/map.js:40-46 | the severity table covers exactly the species that have a Latin name in `getAllNormalised` |
| MapWidget.SeverityOf | js/map.js:48-52 | the severity is the table's entry for a truthy species, and `low` for a missing, empty or unmapped one; it is always low, medium or high |
| MapWidget.ColorOf | js/map.js:54-58 | high is red, medium is yellow, and anything else is green |
| MapWidget.ColorsDistinguishSeverities | js/map.js:54-58 | the three severities get three different colours |
| MapWidget.MatchesSeverityFilter | js/map.js:60-65 | an undefined or empty filter lets every severity through; a set filter lets through exactly its own severity |
| MapWidget.CityOf | js/map.js:201-202 | the city is the truthy location, else the truthy `city` field, else none |
| MapWidget.PlacedAt | js/map.js:201-203 | a sighting is placed exactly when its city is truthy and has coordinates |
| MapWidget.CitySightings | js/map.js:199-209 | a city's group holds exactly the sightings placed at that city, in input order |
| MapWidget.CitySightingsIsFilter | js/map.js:199-209 | a city's group is the input filtered by the city each sighting is placed at |
| MapWidget.CitySightingsInOrder | js/map.js:199-209 | a city's group keeps each of its sightings as often as the input has it, in input order |
| MapWidget.CityGroups | js/map.js:199-209 | the loop creates a group for exactly the cities that have placed sightings, each holding that city's sightings in input order |
| MapWidget.GroupsCoverPlacedSightings | js/map.js:203-208 | only cities with coordinates get a group, and every placed sighting is in the group of its city |
| MapWidget.MarkedSightings | js/map.js:214-225 | a sighting gets a marker if and only if it is placed and its severity passes the filter |
| MapWidget.Markers | js/map.js:211-243 | one marker per marked sighting, in input order, at the sighting's city and coloured by its severity |
| MapWidget.MarkerFor | js/map.js:214-225 | the loop body makes a marker exactly for a placed sighting whose severity passes the filter, at its city and in its severity's colour |
| MapWidget.MarkerInItsGroup | js/map.js:238-240 | the group a marker's click handler passes on contains the marker's own sighting |
| MapWidget.Render | js/map.js:191-250 | an empty list gives no groups and no markers and shows the message; otherwise each marker carries its sighting's city and severity colour, in list order, and the message is shown exactly when there are no markers |
| MapWidget.Dated | js/map.js:116 | the timeline considers exactly the sightings with a truthy date |
| MapWidget.Insert | js/map.js:118 | one insertion step adds exactly the new sighting to the sorted list |
| MapWidget.SortNewestFirst | js/map.js:115-118 | sorting keeps the length and the dated entries |
| MapWidget.SortIsPermutation | js/map.js:115-118 | the sort is a permutation of the dated sightings |
| MapWidget.InsertSorted | js/map.js:118 | inserting into a newest-first list keeps it newest first when every date parses |
| MapWidget.SortSorted | js/map.js:115-118 | when every date parses, the sort orders newest first |
| MapWidget.InsertStable | js/map.js:118 | an inserted sighting goes after every sighting of its own time |
| MapWidget.SortStable | js/map.js:115-118 | when every date parses, sightings of equal time keep their input order |
| MapWidget.Timeline | js/map.js:115-121 | the timeline shows at most ten entries, all dated |
| MapWidget.TimelineContents | js/map.js:115-121 | the timeline shows `min(10, dated)` entries, all of them dated sightings of the group, with no entry repeated beyond its multiplicity |
| MapWidget.TimelineNewest | js/map.js:115-121 | when every date parses, the timeline is the newest-first order cut at ten, and no sighting cut off is newer than one shown |
| MapWidget.ClickShowsOwnSighting | js/map.js:238-240 | clicking a dated sighting's marker shows that sighting in the timeline whenever its city has at most ten dated sightings |

## Left out

- HTTP and cURL (`getAll`, and the requests `getByCity` and `getBySpecies` make) are not modelled. The fetched list, or a function from argument to list, is a parameter. The URL-encoding of the argument is not modelled.
- SQL and PDO are not modelled. `getAll` is the list of rows it returns, and its `ORDER BY` is taken as given. Whether the database accepts an insert is a parameter of `Submit` (`Env.create`). Of the schema, only the NOT NULL columns are modelled (`UserSighting.SchemaAccepts`).
- Report.Submit: a refused insert is reported under `general` and the form is shown again, as lines 185-188 intend. As written, the refusal is an uncaught `PDOException` instead; `Report.SubmitAsWritten` models that, and "## Findings" records it.
- The clock, `time()`, `random_bytes`, `mkdir`, `move_uploaded_file` and the uploaded file's contents are not modelled. They are parameters (`Env`): the moment, the Unix time, the random bytes, and whether the move succeeds.
- Calendar arithmetic and date parsing are not modelled. `date_create`, `new DateTime`, `modify`, `format`, `createFromFormat` and `setTime` are functions in a `Calendar` or `DateFormats` parameter. The one calendar fact used is that going back more months lands earlier (`MonthsBackOrdered`).
- The JavaScript `Date` parser is not modelled. It is the `parse` parameter of the timeline, with `None` standing for NaN.
- TickSighting.SpeciesMatches: `mb_strtolower` is an abstract `fold` parameter. Unicode case folding is not modelled.
- Report.SameIgnoringCase: `strcasecmp` is modelled as ASCII case folding. This matches PHP 8, which folds ASCII letters only; the model does not cover a PHP 7 locale-dependent fold.
- Education.SortUnique: `array_unique` compares its elements as strings, which the model's string equality matches. PHP's `sort` with default flags compares two numeric strings numerically; the model uses byte-wise string order throughout. City and species names are not numeric.
- Education.Index: `(int)$_GET['year']` is not modelled; the query year arrives as an integer.
- Education.Index: the view rendering and `extract` are not modelled.
- The key order of PHP's `$errors` array is not modelled. The error map is a record with one optional message per key.
- Report.OldValues: `trim` applied to a non-string posted value (an array) is not modelled. Every posted field is a string or missing.
- Report.HandleUpload: the upload is moved before `submit` checks `$errors`. As in the code, a valid upload is stored even when the form is rejected; `Submission.imagePath` records this.
- `Base.Sighting` fields hold strings only. Non-string values in the API's JSON (numbers, nested objects) are not modelled.
- MapWidget.SeverityOf and MapWidget.PlacedAt: the objects `speciesSeverity`, `cityCoordinates` and `cityGroups` inherit prototype keys such as `toString`. A location or species equal to such a key gives behaviour the model does not capture.
- MapWidget.SortNewestFirst: with an invalid date, the comparator returns NaN and the order `Array.prototype.sort` produces is implementation-defined. The model gives one stable order, and proves sortedness only when every date parses; the permutation holds always.
- The following parts of `js/map.js` are not modelled: `jitterCoords` (randomness), `formatDate` and the HTML of the details panel, Leaflet calls (`L.map`, `fitBounds`), the quick-action buttons, and the debug logging.
- `js/accessibility.js`, `js/form.js`, `js/main.js`, `index.php` and the views are not part of this model. Of `Database/db.php`, only the error mode and the NOT NULL columns of `user_sightings` are modelled.
- Report.Env: `random` holds the four bytes of `random_bytes(4)`; the generator itself is not modelled.

## Findings

| source | as written | input that shows it | evidently intended | confidence | as-written member | corrected member |
|---|---|---|---|---|---|---|
| Controllers/ReportController.php:183-188 | the connection runs in `PDO::ERRMODE_EXCEPTION` (Database/db.php:10), so `execute` never returns false: a refused insert throws a `PDOException` that `submit` does not catch, and the branch that sets the general error is dead | any submission that passes validation while the database refuses the insert, which the next row shows is every such submission | a refused insert re-shows the form with "There was a problem saving your sighting." | high that the branch is dead; not executed | Report.SubmitAsWritten | Report.Submit |
| Models/UserSighting.php:31-47 | the INSERT sets six columns and leaves `severity` and `created_at` unset, though the table declares both NOT NULL without a default (Database/db.php:20, 23) | any valid report, against a table created by `Database/db.php`: SQLite refuses the row (NOT NULL constraint failed) | the insert also supplies a severity and a creation time | medium (a database file created earlier with another schema would accept the row); not executed | UserSighting.InsertLeavesNotNullColumnsUnset | UserSighting.CompletedInsertIsAccepted |
