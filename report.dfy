/** Controllers/ReportController.php: `submit` trims the posted fields,
    fills an error map field by field (required fields, a strict `Y-m-d`
    date, an `H:i`/`H:i:s` time, not in the future, a city from the allow
    list, the optional image upload) and hands the record to
    `UserSighting::create` only when the map stayed empty. Date handling,
    the clock, the upload move, `time()`, `random_bytes` and the database
    insert are parameters. */
module Report {
  import opened Base
  import UserSighting

  // ================================================================ inputs

  /** `$_POST`; a missing field is `None`. */
  datatype Post = Post(
    date: Option<string>,
    time: Option<string>,
    location: Option<string>,
    species: Option<string>,
    description: Option<string>)

  /** `$_FILES['image']`: the client's file name and the upload error code. */
  datatype Upload = Upload(name: string, error: int)

  /** The `$old` array: the posted fields, `?? ''` and trimmed. */
  datatype Form = Form(date: string, time: string, location: string, species: string, description: string)

  /** `DateTime::createFromFormat` with `Y-m-d`, `H:i` and `H:i:s`,
      `format('Y-m-d')`, `format('H')`, `format('i')` and `setTime`. */
  datatype DateFormats = DateFormats(
    parseYmd: string -> Option<Timestamp>,
    formatYmd: Timestamp -> string,
    parseHi: string -> Option<Timestamp>,
    parseHis: string -> Option<Timestamp>,
    hourOf: Timestamp -> int,
    minuteOf: Timestamp -> int,
    atTime: (Timestamp, int, int) -> Timestamp)

  /** `random_bytes(4)`. */
  type RandomBytes = b: seq<bv8> | |b| == 4 witness [0, 0, 0, 0]

  /** What the environment answers during one submission: the clock
      (`new DateTime('now')` and `time()`), the four random bytes, whether
      `move_uploaded_file` succeeds and whether the database accepts the insert. */
  datatype Env = Env(
    now: Timestamp,
    unixTime: nat,
    random: RandomBytes,
    moved: bool,
    create: UserSighting.NewSighting -> bool)

  /** `UPLOAD_ERR_OK` and `UPLOAD_ERR_NO_FILE`. */
  const UploadOk: int := 0
  const UploadNoFile: int := 4

  // ================================================================ messages

  const DateRequired := "Please select a date for the sighting."
  const TimeRequired := "Please select a time for the sighting."
  const LocationRequired := "Please enter a location (town/area or postcode)."
  const SpeciesRequired := "Please select a tick species."
  const DateInvalid := "Please enter a valid date."
  const TimeInvalid := "Please enter a valid time."
  const InFuture := "The sighting date/time cannot be in the future."
  const CityUnknown := "Please enter a valid UK city from the supported list."
  const UploadFailed := "Failed to upload image. Please try again."
  const UploadProblem := "There was a problem with the image upload."
  const SaveFailed := "There was a problem saving your sighting. Please try again."

  // ================================================================ the form

  /** `$x ?? ''`. */
  function OrEmpty(o: Option<string>): string
  {
    if o.Some? then o.value else ""
  }

  /** `trim($_POST[$k] ?? '')` for each field: every value is trimmed
      already, and a missing field is the empty string. */
  function OldValues(post: Post): (f: Form)
    ensures Trim(f.date) == f.date && Trim(f.time) == f.time && Trim(f.location) == f.location
    ensures Trim(f.species) == f.species && Trim(f.description) == f.description
    ensures post.date.None? ==> f.date == ""
    ensures post.time.None? ==> f.time == ""
    ensures post.location.None? ==> f.location == ""
    ensures post.species.None? ==> f.species == ""
    ensures post.description.None? ==> f.description == ""
    ensures post.date.Some? ==> f.date == Trim(post.date.value)
    ensures post.time.Some? ==> f.time == Trim(post.time.value)
    ensures post.location.Some? ==> f.location == Trim(post.location.value)
    ensures post.species.Some? ==> f.species == Trim(post.species.value)
    ensures post.description.Some? ==> f.description == Trim(post.description.value)
  {
    TrimIdempotent(OrEmpty(post.date));
    TrimIdempotent(OrEmpty(post.time));
    TrimIdempotent(OrEmpty(post.location));
    TrimIdempotent(OrEmpty(post.species));
    TrimIdempotent(OrEmpty(post.description));
    Form(Trim(OrEmpty(post.date)), Trim(OrEmpty(post.time)), Trim(OrEmpty(post.location)),
         Trim(OrEmpty(post.species)), Trim(OrEmpty(post.description)))
  }

  /** The strict date check: `createFromFormat('Y-m-d')` succeeds and
      formatting the result back gives the very same string. */
  predicate DateValid(date: string, fmt: DateFormats)
  {
    fmt.parseYmd(date).Some? && fmt.formatYmd(fmt.parseYmd(date).value) == date
  }

  /** `createFromFormat('H:i', $t) ?: createFromFormat('H:i:s', $t)`. */
  function ParseTime(time: string, fmt: DateFormats): (r: Option<Timestamp>)
    ensures r.Some? <==> fmt.parseHi(time).Some? || fmt.parseHis(time).Some?
    ensures fmt.parseHi(time).Some? ==> r == fmt.parseHi(time)
    ensures fmt.parseHi(time).None? ==> r == fmt.parseHis(time)
  {
    if fmt.parseHi(time).Some? then fmt.parseHi(time) else fmt.parseHis(time)
  }

  /** The date with the hour and minute of the time: the combined sighting moment. */
  function SightingMoment(f: Form, fmt: DateFormats): Timestamp
    requires fmt.parseYmd(f.date).Some? && ParseTime(f.time, fmt).Some?
  {
    var t := ParseTime(f.time, fmt).value;
    fmt.atTime(fmt.parseYmd(f.date).value, fmt.hourOf(t), fmt.minuteOf(t))
  }

  /** Both parts are present and valid and their combination lies after "now". */
  predicate IsFuture(f: Form, fmt: DateFormats, now: Timestamp)
  {
    f.date != "" && f.time != "" && DateValid(f.date, fmt) && ParseTime(f.time, fmt).Some? &&
    SightingMoment(f, fmt) > now
  }

  // ================================================================ the city allow list

  const AllowedCities: seq<string> := [
    "Nottingham", "Glasgow", "London", "Manchester", "Sheffield", "Liverpool", "Bristol",
    "Birmingham", "Edinburgh", "Cardiff", "Southampton", "Newcastle", "Leeds", "Leicester"]

  /** The byte-wise lower-casing `strcasecmp` applies (ASCII letters only). */
  function AsciiLower(c: char): (r: char)
    ensures 'A' <= c <= 'Z' ==> r as int == c as int + 32
    ensures !('A' <= c <= 'Z') ==> r == c
  {
    if 'A' <= c <= 'Z' then (c as int + 32) as char else c
  }

  function FoldAscii(s: string): (r: string)
    ensures |r| == |s| && forall i :: 0 <= i < |s| ==> r[i] == AsciiLower(s[i])
  {
    seq(|s|, i requires 0 <= i < |s| => AsciiLower(s[i]))
  }

  /** `strcasecmp($a, $b) === 0`. */
  predicate SameIgnoringCase(a: string, b: string)
  {
    FoldAscii(a) == FoldAscii(b)
  }

  /** The first city of `cities` equal to `location` up to case. */
  function FirstMatch(location: string, cities: seq<string>): (r: Option<string>)
    ensures r.Some? ==> r.value in cities && SameIgnoringCase(location, r.value)
    ensures r.None? <==> forall c :: c in cities ==> !SameIgnoringCase(location, c)
  {
    if cities == [] then None
    else if SameIgnoringCase(location, cities[0]) then Some(cities[0])
    else FirstMatch(location, cities[1..])
  }

  /** The canonical spelling of a location, if it names an allowed city. */
  function CanonicalCity(location: string): Option<string>
  {
    FirstMatch(location, AllowedCities)
  }

  /** The `foreach` over `$allowedCities` that stops at the first
      case-insensitive match. */
  method Canonicalise(location: string) returns (normalised: Option<string>)
    ensures normalised == CanonicalCity(location)
  {
    normalised := SearchCities(location, AllowedCities);
  }

  /** The loop of `Canonicalise`, over any list of cities. */
  method SearchCities(location: string, cities: seq<string>) returns (normalised: Option<string>)
    ensures normalised == FirstMatch(location, cities)
  {
    normalised := None;
    var i := 0;
    while i < |cities|
      invariant 0 <= i <= |cities|
      invariant FirstMatch(location, cities) == FirstMatch(location, cities[i..])
    {
      var city := cities[i];
      if FoldAscii(location) == FoldAscii(city) {
        normalised := Some(city);
        break;
      }
      assert cities[i..][1..] == cities[i + 1..];
      i := i + 1;
    }
  }

  /** Locations equal up to case canonicalise alike. */
  lemma {:induction false} FirstMatchIgnoresCase(a: string, b: string, cities: seq<string>)
    requires SameIgnoringCase(a, b)
    ensures FirstMatch(a, cities) == FirstMatch(b, cities)
  {
    if cities != [] {
      FirstMatchIgnoresCase(a, b, cities[1..]);
    }
  }

  /** Canonicalising a canonical spelling gives it back. */
  lemma {:induction false} FirstMatchIdempotent(location: string, cities: seq<string>)
    requires FirstMatch(location, cities).Some?
    ensures FirstMatch(FirstMatch(location, cities).value, cities) == FirstMatch(location, cities)
  {
    var c := FirstMatch(location, cities).value;
    FirstMatchIgnoresCase(c, location, cities);
  }

  /** The canonical city of a location: an allowed city, equal to it up to
      case, independent of the location's case, and itself canonical. */
  lemma CanonicalCityProperties(location: string, other: string)
    ensures CanonicalCity(location).Some? <==> exists i :: 0 <= i < |AllowedCities| && SameIgnoringCase(location, AllowedCities[i])
    ensures CanonicalCity(location).Some? ==>
      CanonicalCity(location).value in AllowedCities &&
      SameIgnoringCase(location, CanonicalCity(location).value) &&
      CanonicalCity(CanonicalCity(location).value) == CanonicalCity(location)
    ensures SameIgnoringCase(location, other) ==> CanonicalCity(location) == CanonicalCity(other)
  {
    if CanonicalCity(location).Some? {
      FirstMatchIdempotent(location, AllowedCities);
    }
    if SameIgnoringCase(location, other) {
      FirstMatchIgnoresCase(location, other, AllowedCities);
    }
  }

  /** The allow list is searched in order: the first city equal up to case wins. */
  lemma {:induction false} FirstMatchAt(location: string, cities: seq<string>, i: int)
    requires 0 <= i < |cities| && SameIgnoringCase(location, cities[i])
    requires forall j :: 0 <= j < i ==> !SameIgnoringCase(location, cities[j])
    ensures FirstMatch(location, cities) == Some(cities[i])
  {
    if i > 0 {
      assert cities[1..][i - 1] == cities[i];
      FirstMatchAt(location, cities[1..], i - 1);
    }
  }

  /** Worked examples: any capitalisation of "nottingham" becomes
      "Nottingham"; a four-letter name matches no allowed city. */
  lemma CanonicalCityExamples()
    ensures CanonicalCity("nOTTINGHAM") == Some("Nottingham")
    ensures CanonicalCity("York") == None
  {
    assert FoldAscii("nOTTINGHAM") == FoldAscii("Nottingham");
    forall c | c in AllowedCities ensures !SameIgnoringCase("York", c) {
      assert |c| != 4;
    }
  }

  // ================================================================ the upload

  /** The position of the last `sep` in `s`, or -1 when there is none. */
  function LastIndexOf(s: string, sep: char): (k: int)
    ensures -1 <= k < |s|
    ensures k >= 0 ==> s[k] == sep
    ensures forall j :: k < j < |s| ==> s[j] != sep
  {
    if s == [] then -1
    else if s[|s| - 1] == sep then |s| - 1
    else LastIndexOf(s[..|s| - 1], sep)
  }

  /** The part of `s` after the last `sep` (all of `s` when there is none). */
  function AfterLast(s: string, sep: char): (r: string)
    ensures forall j :: 0 <= j < |r| ==> r[j] != sep
  {
    s[LastIndexOf(s, sep) + 1..]
  }

  /** The length `s` keeps once its trailing slashes are dropped. */
  function KeptLength(s: string): (n: nat)
    ensures n <= |s|
    ensures n == 0 || s[n - 1] != '/'
    ensures forall j :: n <= j < |s| ==> s[j] == '/'
  {
    if s != [] && s[|s| - 1] == '/' then KeptLength(s[..|s| - 1]) else |s|
  }

  /** PHP's `basename` on a `/`-separated path: trailing slashes dropped,
      then everything up to the last `/`. */
  function Basename(path: string): (r: string)
    ensures forall j :: 0 <= j < |r| ==> r[j] != '/'
  {
    AfterLast(path[..KeptLength(path)], '/')
  }

  /** `pathinfo($name, PATHINFO_EXTENSION)`: after the last `.` of the
      basename, and `''` when the basename has no `.`. */
  function Extension(name: string): (r: string)
    ensures forall j :: 0 <= j < |r| ==> r[j] != '.' && r[j] != '/'
  {
    var base := Basename(name);
    if '.' in base then AfterLast(base, '.') else ""
  }

  predicate IsAlnum(c: char)
  {
    'a' <= c <= 'z' || 'A' <= c <= 'Z' || '0' <= c <= '9'
  }

  /** `preg_replace('/[^a-zA-Z0-9]/', '', $ext)`. */
  function KeepAlnum(s: string): (r: string)
    ensures forall j :: 0 <= j < |r| ==> IsAlnum(r[j])
    ensures forall c :: multiset(r)[c] == if IsAlnum(c) then multiset(s)[c] else 0
  {
    if s == [] then []
    else
      assert s == [s[0]] + s[1..];
      if IsAlnum(s[0]) then [s[0]] + KeepAlnum(s[1..]) else KeepAlnum(s[1..])
  }

  /** The letters and digits are kept in their order. */
  lemma {:induction false} KeepAlnumIsSubsequence(s: string)
    ensures IsSubsequence(KeepAlnum(s), s)
  {
    if s != [] {
      var rest := KeepAlnum(s[1..]);
      KeepAlnumIsSubsequence(s[1..]);
      if IsAlnum(s[0]) {
        assert ([s[0]] + rest)[1..] == rest;
      } else {
        SubsequenceCons(s[0], rest, s[1..]);
        assert [s[0]] + s[1..] == s;
      }
    }
  }

  /** `$ext ? '.' . preg_replace(...) : ''`: a falsy extension (`''`, `'0'`)
      gives no suffix, any other a dot and the letters and digits of it. */
  function SafeExtension(name: string): (r: string)
    ensures r == "" <==> !PhpTruthy(Extension(name))
    ensures r != "" ==> r[0] == '.' && forall j :: 1 <= j < |r| ==> IsAlnum(r[j])
    ensures r != "" ==> r == "." + KeepAlnum(Extension(name))
  {
    var ext := Extension(name);
    if PhpTruthy(ext) then "." + KeepAlnum(ext) else ""
  }

  /** The decimal digits of `n`, as `(string) time()` writes them. */
  function Decimal(n: nat): (r: string)
    ensures r != [] && forall j :: 0 <= j < |r| ==> '0' <= r[j] <= '9'
  {
    var d := [(('0' as int) + n % 10) as char];
    if n < 10 then d else Decimal(n / 10) + d
  }

  function HexDigit(v: int): (c: char)
    requires 0 <= v < 16
    ensures '0' <= c <= '9' || 'a' <= c <= 'f'
  {
    if v < 10 then ('0' as int + v) as char else ('a' as int + v - 10) as char
  }

  /** `bin2hex`: two lower-case hex digits per byte. */
  function Hex(bytes: seq<bv8>): (r: string)
    ensures |r| == 2 * |bytes|
    ensures forall j :: 0 <= j < |r| ==> '0' <= r[j] <= '9' || 'a' <= r[j] <= 'f'
  {
    if bytes == [] then []
    else [HexDigit(bytes[0] as int / 16), HexDigit(bytes[0] as int % 16)] + Hex(bytes[1..])
  }

  /** `'sighting_' . time() . '_' . bin2hex(random_bytes(4)) . $safeExt`:
      the `sighting_` prefix, the decimal time, `_`, two hex digits per
      random byte, and the name ends with the safe extension. */
  function UploadFileName(name: string, unixTime: nat, random: seq<bv8>): (r: string)
    ensures |r| == 10 + |Decimal(unixTime)| + 2 * |random| + |SafeExtension(name)|
    ensures r[..9] == "sighting_"
    ensures r[9..9 + |Decimal(unixTime)|] == Decimal(unixTime)
    ensures r[9 + |Decimal(unixTime)|] == '_'
    ensures r[10 + |Decimal(unixTime)|..10 + |Decimal(unixTime)| + 2 * |random|] == Hex(random)
    ensures r[|r| - |SafeExtension(name)|..] == SafeExtension(name)
  {
    FiveParts("sighting_", Decimal(unixTime), "_", Hex(random), SafeExtension(name));
    "sighting_" + Decimal(unixTime) + "_" + Hex(random) + SafeExtension(name)
  }

  /** Where each of five concatenated pieces sits in the whole. */
  lemma FiveParts(p: string, d: string, u: string, h: string, e: string)
    requires |u| == 1
    ensures var r := p + d + u + h + e;
      && |r| == |p| + |d| + 1 + |h| + |e|
      && r[..|p|] == p
      && r[|p|..|p| + |d|] == d
      && r[|p| + |d|] == u[0]
      && r[|p| + |d| + 1..|p| + |d| + 1 + |h|] == h
      && r[|r| - |e|..] == e
  {
    var r := p + d + u + h + e;
    assert r == (((p + d) + u) + h) + e;
    assert r[|p| + |d|] == u[0];
  }

  /** The characters a stored file name is made of. */
  predicate FileNameChars(s: string)
  {
    forall i :: 0 <= i < |s| ==> IsAlnum(s[i]) || s[i] == '_' || s[i] == '.'
  }

  lemma FileNameCharsConcat(a: string, b: string)
    requires FileNameChars(a) && FileNameChars(b)
    ensures FileNameChars(a + b)
  {
    forall i | 0 <= i < |a + b| ensures IsAlnum((a + b)[i]) || (a + b)[i] == '_' || (a + b)[i] == '.' {
      if i >= |a| {
        assert (a + b)[i] == b[i - |a|];
      }
    }
  }

  /** The stored name stays inside the upload directory: it has the
      `sighting_` prefix, and only letters, digits, `_` and `.` (no `/`). */
  lemma UploadFileNameShape(name: string, unixTime: nat, random: seq<bv8>)
    ensures var f := UploadFileName(name, unixTime, random);
      && FileNameChars(f)
      && forall i :: 0 <= i < |f| ==> f[i] != '/'
  {
    var d := Decimal(unixTime);
    var h := Hex(random);
    var e := SafeExtension(name);
    var prefix := "sighting_";
    assert FileNameChars(prefix);
    assert FileNameChars(d);
    assert FileNameChars("_");
    assert FileNameChars(h);
    assert FileNameChars(e);
    FileNameCharsConcat(prefix, d);
    FileNameCharsConcat(prefix + d, "_");
    FileNameCharsConcat(prefix + d + "_", h);
    FileNameCharsConcat(prefix + d + "_" + h, e);
    var f := prefix + d + "_" + h + e;
    assert f == UploadFileName(name, unixTime, random);
  }

  /** The two outcomes of the upload block: the web path of a moved file, and an error. */
  datatype UploadResult = UploadResult(imagePath: Option<string>, error: Option<string>)

  /** Step 4: a truthy file name and `UPLOAD_ERR_OK` move the file under a
      fresh name; any other error code except `UPLOAD_ERR_NO_FILE` is an error. */
  function HandleUpload(upload: Option<Upload>, env: Env): (r: UploadResult)
    ensures r.imagePath.Some? ==> r.error.None?
    ensures r.imagePath.Some? <==> upload.Some? && PhpTruthy(upload.value.name) && upload.value.error == UploadOk && env.moved
    ensures r.error.Some? <==> (upload.Some? && PhpTruthy(upload.value.name) &&
      ((upload.value.error == UploadOk && !env.moved) || (upload.value.error != UploadOk && upload.value.error != UploadNoFile)))
    ensures r.imagePath.Some? ==>
      r.imagePath.value == "images/uploads/" + UploadFileName(upload.value.name, env.unixTime, env.random)
    ensures r.error.Some? ==> r.error.value == if upload.value.error == UploadOk then UploadFailed else UploadProblem
  {
    if upload.None? || !PhpTruthy(upload.value.name) then UploadResult(None, None)
    else if upload.value.error == UploadOk then
      if env.moved then UploadResult(Some("images/uploads/" + UploadFileName(upload.value.name, env.unixTime, env.random)), None)
      else UploadResult(None, Some(UploadFailed))
    else if upload.value.error != UploadNoFile then UploadResult(None, Some(UploadProblem))
    else UploadResult(None, None)
  }

  // ================================================================ the error map

  /** `$errors`: at most one message under each key `submit` uses. */
  datatype Errors = Errors(
    date: Option<string>,
    time: Option<string>,
    location: Option<string>,
    species: Option<string>,
    image: Option<string>,
    general: Option<string>)
  {
    /** `empty($errors)`. */
    predicate IsEmpty()
    {
      date.None? && time.None? && location.None? && species.None? && image.None? && general.None?
    }
  }

  const NoErrors := Errors(None, None, None, None, None, None)

  /** The message left under `date` once all checks have run. */
  function DateError(f: Form, fmt: DateFormats, now: Timestamp): Option<string>
  {
    if f.date == "" then Some(DateRequired)
    else if f.time != "" && !DateValid(f.date, fmt) then Some(DateInvalid)
    else if IsFuture(f, fmt, now) then Some(InFuture)
    else None
  }

  /** The message left under `time` once all checks have run. */
  function TimeError(f: Form, fmt: DateFormats, now: Timestamp): Option<string>
  {
    if f.time == "" then Some(TimeRequired)
    else if f.date != "" && ParseTime(f.time, fmt).None? then Some(TimeInvalid)
    else if IsFuture(f, fmt, now) then Some(InFuture)
    else None
  }

  /** The message left under `location`: required, then the allow list. */
  function LocationError(f: Form): Option<string>
  {
    if f.location == "" then Some(LocationRequired)
    else if CanonicalCity(f.location).None? then Some(CityUnknown)
    else None
  }

  /** The message left under `species`. */
  function SpeciesError(f: Form): Option<string>
  {
    if f.species == "" then Some(SpeciesRequired) else None
  }

  /** The error map as it stands after steps 1 to 4, key by key. */
  function ValidationErrors(f: Form, fmt: DateFormats, now: Timestamp, upload: UploadResult): (r: Errors)
    ensures r.general.None? && r.image == upload.error
    ensures f.location == "" ==> r.location == Some(LocationRequired)
    ensures f.location != "" ==> (r.location.Some? <==> CanonicalCity(f.location).None?)
    ensures r.IsEmpty() ==> f.date != "" && f.time != "" && f.species != "" && upload.error.None?
  {
    Errors(DateError(f, fmt, now), TimeError(f, fmt, now), LocationError(f), SpeciesError(f), upload.error, None)
  }

  // ================================================================ submit

  /** What `show` receives: the error map, the values to refill (`None`
      for the empty array) and the success flag. */
  datatype Shown = Shown(errors: Errors, refill: Option<Form>, success: bool)

  /** One submission: what is shown, the record handed to `create` (if it
      was called), and the web path of the moved upload (if any). */
  datatype Submission = Submission(shown: Shown, saved: Option<UserSighting.NewSighting>, imagePath: Option<string>)

  /** The record step 6 builds from a form that passed validation. */
  function RecordFor(f: Form, imagePath: Option<string>): (r: UserSighting.NewSighting)
    ensures r.date == f.date && r.time == f.time && r.species == f.species
    ensures r.description == Some(f.description) && r.imagePath == imagePath
    ensures CanonicalCity(f.location).Some? ==>
      r.location == CanonicalCity(f.location).value && r.location in AllowedCities
    ensures CanonicalCity(f.location).None? ==> r.location == f.location
  {
    var location := if CanonicalCity(f.location).Some? then CanonicalCity(f.location).value else f.location;
    UserSighting.NewSighting(f.date, f.time, location, f.species, Some(f.description), imagePath)
  }

  /** Step 2 of `submit`: with both fields present, a date that does not
      round-trip through `Y-m-d`, a time that matches neither `H:i` nor
      `H:i:s`, and a valid moment after "now" are reported. */
  method CheckMoment(form: Form, fmt: DateFormats, now: Timestamp, errors: Errors) returns (updated: Errors)
    requires errors.date == (if form.date == "" then Some(DateRequired) else None)
    requires errors.time == (if form.time == "" then Some(TimeRequired) else None)
    ensures updated == errors.(date := DateError(form, fmt, now), time := TimeError(form, fmt, now))
  {
    updated := errors;
    if form.date != "" && form.time != "" {
      var dateObj := fmt.parseYmd(form.date);
      var dateValid := dateObj.Some? && fmt.formatYmd(dateObj.value) == form.date;
      var timeObj := if fmt.parseHi(form.time).Some? then fmt.parseHi(form.time) else fmt.parseHis(form.time);
      var timeValid := timeObj.Some?;
      if !dateValid {
        updated := updated.(date := Some(DateInvalid));
      }
      if !timeValid {
        updated := updated.(time := Some(TimeInvalid));
      }
      if dateValid && timeValid {
        var moment := fmt.atTime(dateObj.value, fmt.hourOf(timeObj.value), fmt.minuteOf(timeObj.value));
        if moment > now {
          updated := updated.(date := Some(InFuture));
          updated := updated.(time := Some(InFuture));
        }
      }
    }
  }

  /** Steps 1 to 4 of `submit`: the error map, the canonical city found by
      the allow-list search, and the web path of the moved upload. */
  method Validate(form: Form, upload: Option<Upload>, fmt: DateFormats, env: Env)
    returns (errors: Errors, normalised: Option<string>, imagePath: Option<string>)
    ensures errors == ValidationErrors(form, fmt, env.now, HandleUpload(upload, env))
    ensures normalised == (if form.location == "" then None else CanonicalCity(form.location))
    ensures imagePath == HandleUpload(upload, env).imagePath
  {
    errors := NoErrors;

    // 1. required fields
    if form.date == "" {
      errors := errors.(date := Some(DateRequired));
    }
    if form.time == "" {
      errors := errors.(time := Some(TimeRequired));
    }
    if form.location == "" {
      errors := errors.(location := Some(LocationRequired));
    }
    if form.species == "" {
      errors := errors.(species := Some(SpeciesRequired));
    }

    // 2. date and time format, not in the future
    errors := CheckMoment(form, fmt, env.now, errors);
    assert errors.date == DateError(form, fmt, env.now) && errors.time == TimeError(form, fmt, env.now);

    // 3. the allow list
    normalised := None;
    if form.location != "" {
      normalised := Canonicalise(form.location);
      if normalised.None? {
        errors := errors.(location := Some(CityUnknown));
      }
    }
    assert errors.location == LocationError(form);

    // 4. the optional upload
    var up := HandleUpload(upload, env);
    imagePath := up.imagePath;
    if up.error.Some? {
      errors := errors.(image := up.error);
    }
  }

  /** `ReportController::submit`: `create` is called exactly when the
      checks left no error; the form is shown again with the old values on
      any error, and empty with the success banner after a save. */
  method Submit(post: Post, upload: Option<Upload>, fmt: DateFormats, env: Env) returns (r: Submission)
    ensures var f := OldValues(post);
      var up := HandleUpload(upload, env);
      var errs := ValidationErrors(f, fmt, env.now, up);
      && r.imagePath == up.imagePath
      && (!errs.IsEmpty() ==> r == Submission(Shown(errs, Some(f), false), None, up.imagePath))
      && (errs.IsEmpty() ==> r.saved == Some(RecordFor(f, up.imagePath)))
      && (errs.IsEmpty() && env.create(RecordFor(f, up.imagePath)) ==> r.shown == Shown(NoErrors, None, true))
      && (errs.IsEmpty() && !env.create(RecordFor(f, up.imagePath)) ==>
            r.shown == Shown(NoErrors.(general := Some(SaveFailed)), Some(f), false))
  {
    var form := OldValues(post);
    var errors, normalised, imagePath := Validate(form, upload, fmt, env);

    // 5. re-show on errors
    if !errors.IsEmpty() {
      return Submission(Shown(errors, Some(form), false), None, imagePath);
    }

    // 6. save
    var locationToSave := if normalised.Some? then normalised.value else form.location;
    var data := UserSighting.NewSighting(form.date, form.time, locationToSave, form.species, Some(form.description), imagePath);
    var created := env.create(data);
    if !created {
      errors := errors.(general := Some(SaveFailed));
      return Submission(Shown(errors, Some(form), false), Some(data), imagePath);
    }

    // 7. success
    r := Submission(Shown(NoErrors, None, true), Some(data), imagePath);
  }

  /** `submit` as written. The connection sets `PDO::ERRMODE_EXCEPTION`
      (Database/db.php), so an insert the database refuses throws a
      `PDOException` out of `execute` instead of returning false; `submit`
      does not catch it, so no page is shown (`None`) and the `general`
      message of step 6 is never set. `Submit` models the evident intent,
      a refused insert reported through `general`. */
  method SubmitAsWritten(post: Post, upload: Option<Upload>, fmt: DateFormats, env: Env) returns (r: Option<Submission>)
    ensures var f := OldValues(post);
      var up := HandleUpload(upload, env);
      var errs := ValidationErrors(f, fmt, env.now, up);
      && (r.None? <==> errs.IsEmpty() && !env.create(RecordFor(f, up.imagePath)))
      && (r.Some? ==> r.value.shown.errors.general.None?)
      && (!errs.IsEmpty() ==> r == Some(Submission(Shown(errs, Some(f), false), None, up.imagePath)))
      && (r.Some? && errs.IsEmpty() ==>
            r.value == Submission(Shown(NoErrors, None, true), Some(RecordFor(f, up.imagePath)), up.imagePath))
  {
    var s := Submit(post, upload, fmt, env);
    if s.saved.Some? && !env.create(s.saved.value) {
      // the exception leaves `submit` before `show` is reached
      r := None;
    } else {
      r := Some(s);
    }
  }

  // ================================================================ properties of the error map

  /** Each required field left empty after trimming is reported under its own key. */
  lemma RequiredFieldErrors(f: Form, fmt: DateFormats, now: Timestamp, up: UploadResult)
    ensures var errs := ValidationErrors(f, fmt, now, up);
      && (errs.date == Some(DateRequired) <==> f.date == "")
      && (errs.time == Some(TimeRequired) <==> f.time == "")
      && (errs.location == Some(LocationRequired) <==> f.location == "")
      && (errs.species.Some? <==> f.species == "")
  {
  }

  /** A moment in the future is reported under both `date` and `time`, and
      is the only way the two keys carry the same message. */
  lemma FutureSetsBoth(f: Form, fmt: DateFormats, now: Timestamp, up: UploadResult)
    ensures var errs := ValidationErrors(f, fmt, now, up);
      IsFuture(f, fmt, now) <==> (errs.date == Some(InFuture) && errs.time == Some(InFuture))
  {
  }

  /** An empty error map means every check passed: all four fields set, a
      date that round-trips through `Y-m-d`, a parseable time, a moment not
      after "now", an allowed city, and no upload error; and conversely. */
  lemma NoErrorsIffValid(f: Form, fmt: DateFormats, now: Timestamp, up: UploadResult)
    ensures ValidationErrors(f, fmt, now, up).IsEmpty() <==>
      && f.date != "" && f.time != "" && f.location != "" && f.species != ""
      && DateValid(f.date, fmt)
      && ParseTime(f.time, fmt).Some? && SightingMoment(f, fmt) <= now
      && CanonicalCity(f.location).Some?
      && up.error.None?
  {
  }

  /** A saved report, read back through `getAllNormalised`, is a user record
      at an allowed city under its canonical spelling, with the date and the
      time joined by `T` and the Latin name of its species. */
  lemma SavedRecordNormalises(f: Form, fmt: DateFormats, now: Timestamp, up: UploadResult, id: int)
    requires ValidationErrors(f, fmt, now, up).IsEmpty()
    ensures var s := UserSighting.Normalise(UserSighting.StoredRow(id, RecordFor(f, up.imagePath)));
      && s.source == Some("user")
      && s.location.Some? && s.location.value in AllowedCities
      && SameIgnoringCase(s.location.value, f.location)
      && s.species == Some(f.species)
      && s.latinName == UserSighting.LatinNameOf(f.species)
      && s.imagePath == up.imagePath
      && (PhpTruthy(f.date) && PhpTruthy(f.time) ==> s.date == Some(f.date + "T" + f.time))
  {
    NoErrorsIffValid(f, fmt, now, up);
    var c := CanonicalCity(f.location).value;
    assert FoldAscii(c) == FoldAscii(f.location);
  }
}
