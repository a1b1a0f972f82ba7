/** Models/UserSighting.php: the rows of the local `user_sightings` table,
    the parameters `create` binds, and `getAllNormalised`, which reshapes
    each row into the record shape of the remote API. The SQL itself is
    not modelled: `getAll` is the list of rows it returns. */
module UserSighting {
  import opened Base

  /** One row as `getAll` fetches it (`FETCH_ASSOC`); SQL NULL is `None`. */
  datatype Row = Row(
    id: int,
    sightingDate: Option<string>,
    sightingTime: Option<string>,
    location: Option<string>,
    species: Option<string>,
    description: Option<string>,
    imagePath: Option<string>)

  /** The associative array handed to `create`; keys that may be missing are `Option`. */
  datatype NewSighting = NewSighting(
    date: string,
    time: string,
    location: string,
    species: string,
    description: Option<string>,
    imagePath: Option<string>)

  /** The five entries of `$speciesToLatin`. */
  function LatinNameOf(species: string): (r: Option<string>)
    ensures r.Some? <==> species in {"Passerine tick", "Fox/badger tick", "Southern rodent tick", "Marsh tick", "Tree-hole tick"}
  {
    match species
    case "Passerine tick" => Some("Ixodes arboricola")
    case "Fox/badger tick" => Some("Ixodes canisuga")
    case "Southern rodent tick" => Some("Ixodes acuminatus")
    case "Marsh tick" => Some("Ixodes apronophorus")
    case "Tree-hole tick" => Some("Dermacentor frontalis")
    case _ => None
  }

  /** The row `create` inserts for `data` under the id the database assigns:
      a missing description or image path is bound as NULL. */
  function StoredRow(id: int, data: NewSighting): (row: Row)
    ensures row.sightingDate == Some(data.date) && row.sightingTime == Some(data.time)
    ensures row.location == Some(data.location) && row.species == Some(data.species)
    ensures row.description == data.description && row.imagePath == data.imagePath
  {
    Row(id, Some(data.date), Some(data.time), Some(data.location), Some(data.species),
        data.description, data.imagePath)
  }

  /** Combine date and time with `T` when both are truthy, keep the date
      alone when only it is, and give null otherwise: the result starts
      with the date, and the part after the date is `T` and the time
      exactly when there is a truthy time. */
  function JoinDateTime(date: Option<string>, time: Option<string>): (r: Option<string>)
    ensures r.Some? <==> Filled(date)
    ensures r.Some? ==> |date.value| <= |r.value| && r.value[..|date.value|] == date.value
    ensures r.Some? && !Filled(time) ==> r.value == date.value
    ensures r.Some? && Filled(time) ==> r.value[|date.value|..] == "T" + time.value
  {
    if Filled(date) && Filled(time) then Some(date.value + "T" + time.value)
    else if Filled(date) then Some(date.value)
    else None
  }

  /** The part before the first `T`, and the part after it. */
  function SplitAtT(s: string): (string, string)
  {
    if s == [] then ("", "")
    else if s[0] == 'T' then ("", s[1..])
    else var (d, t) := SplitAtT(s[1..]); ([s[0]] + d, t)
  }

  lemma {:induction false} SplitJoined(d: string, t: string)
    requires 'T' !in d
    ensures SplitAtT(d + "T" + t) == (d, t)
  {
    if d != [] {
      assert (d + "T" + t)[1..] == d[1..] + "T" + t;
      SplitJoined(d[1..], t);
      assert [d[0]] + d[1..] == d;
    } else {
      assert ("" + "T" + t)[1..] == t;
    }
  }

  /** The joined date loses nothing: with a `T`-free date part (a `Y-m-d`
      date has none), splitting at the first `T` gives back date and time. */
  lemma JoinDateTimeSplits(date: Option<string>, time: Option<string>)
    requires Filled(date) && Filled(time) && 'T' !in date.value
    ensures JoinDateTime(date, time).Some?
    ensures SplitAtT(JoinDateTime(date, time).value) == (date.value, time.value)
  {
    SplitJoined(date.value, time.value);
  }

  /** The closure `getAllNormalised` maps over the rows. */
  function Normalise(row: Row): (s: Sighting)
    ensures s.source == Some("user")
    ensures s.date == JoinDateTime(row.sightingDate, row.sightingTime)
    ensures s.location == row.location && s.species == row.species && s.imagePath == row.imagePath
    ensures s.latinName.Some? <==> row.species.Some? && LatinNameOf(row.species.value).Some?
    ensures s.latinName.Some? ==> s.latinName == LatinNameOf(row.species.value)
    ensures s.city.None?
  {
    var latin := if Filled(row.species) then LatinNameOf(row.species.value) else None;
    Sighting(JoinDateTime(row.sightingDate, row.sightingTime), row.location, row.species,
             latin, row.imagePath, Some("user"), None)
  }

  /** `getAllNormalised`: one record per row, in row order. */
  function GetAllNormalised(rows: seq<Row>): (r: seq<Sighting>)
    ensures |r| == |rows|
    ensures forall i :: 0 <= i < |rows| ==> r[i] == Normalise(rows[i])
  {
    seq(|rows|, i requires 0 <= i < |rows| => Normalise(rows[i]))
  }

  // ---------------------------------------------------------------- the insert and the schema

  /** The columns `user_sightings` declares NOT NULL (Database/db.php);
      none has a default, and `id` is filled by AUTOINCREMENT. */
  const NotNullColumns: seq<string> :=
    ["sighting_date", "sighting_time", "location", "species", "severity", "created_at"]

  /** The columns the INSERT of `create` names, as written. */
  const InsertColumns: seq<string> :=
    ["sighting_date", "sighting_time", "location", "species", "description", "image_path"]

  /** The INSERT with the two NOT NULL columns it leaves out added. */
  const CompletedInsertColumns: seq<string> := InsertColumns + ["severity", "created_at"]

  /** SQLite refuses an INSERT that leaves a NOT NULL column without a default unset. */
  predicate SchemaAccepts(columns: seq<string>)
  {
    forall c :: c in NotNullColumns ==> c in columns
  }

  /** As written, `create` never sets `severity` or `created_at`, so the
      database refuses every insert it makes. */
  lemma InsertLeavesNotNullColumnsUnset()
    ensures "severity" in NotNullColumns && "severity" !in InsertColumns
    ensures "created_at" in NotNullColumns && "created_at" !in InsertColumns
    ensures !SchemaAccepts(InsertColumns)
  {
    assert NotNullColumns[4] == "severity";
  }

  /** Naming the two missing columns as well makes the insert acceptable
      to the schema. */
  lemma CompletedInsertIsAccepted()
    ensures SchemaAccepts(CompletedInsertColumns)
    ensures forall c :: c in InsertColumns ==> c in CompletedInsertColumns
  {
    forall c | c in NotNullColumns ensures c in CompletedInsertColumns {
      if c == "severity" {
        assert CompletedInsertColumns[6] == c;
      } else if c == "created_at" {
        assert CompletedInsertColumns[7] == c;
      } else {
        assert c in InsertColumns;
      }
    }
  }
}
