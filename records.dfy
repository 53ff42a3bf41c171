/**
 * The value types of the historian client: naive and localized timestamps,
 * `Tag`, `TagReading`, and the rows the database cursor yields.
 */
module Records {
  import opened Escaping

  type Microsecond = m: int | 0 <= m < 1_000_000

  /**
   * A naive `datetime` as the database returns it: a wall-clock instant in
   * whole seconds from an arbitrary epoch, plus the microsecond field.
   */
  datatype DateTime = DateTime(second: int, microsecond: Microsecond)

  /** Python's `a <= b` on two naive datetimes. */
  predicate LessOrEqual(a: DateTime, b: DateTime)
  {
    a.second < b.second || (a.second == b.second && a.microsecond <= b.microsecond)
  }

  /** `t.replace(microsecond=0)`. */
  function WithoutMicroseconds(t: DateTime): (r: DateTime)
    ensures r.microsecond == 0 && r.second == t.second
    ensures LessOrEqual(r, t)
  {
    t.(microsecond := 0)
  }

  /** A `pytz` time zone, known by its name. */
  datatype TimeZone = TimeZone(name: string)

  /** A time-zone-aware datetime: the wall-clock time and the zone it is in. */
  datatype AwareDateTime = AwareDateTime(local: DateTime, zone: TimeZone)

  /** `tz.localize(t)`: annotates a naive wall-clock time with the zone. */
  function Localize(t: DateTime, tz: TimeZone): AwareDateTime
  {
    AwareDateTime(t, tz)
  }

  /** Tag metadata. */
  datatype Tag = Tag(id: string, description: string, units: string)

  /** One timestamped, quality-flagged value of a tag. */
  datatype TagReading = TagReading(value: real, timestamp: AwareDateTime, quality: int) {

    /** `TagReading.quality_str`: 192 is good, 0 is bad, anything else is unknown. */
    function QualityStr(): (r: string)
      ensures r == "Good" <==> quality == 192
      ensures r == "Bad" <==> quality == 0
      ensures r == "Unknown" <==> quality != 192 && quality != 0
    {
      if quality == 192 then "Good"
      else if quality == 0 then "Bad"
      else "Unknown"
    }
  }

  /** A row of the tag-metadata query: columns `Id`, `Description`, `Units`. */
  datatype TagRow = TagRow(id: string, description: string, units: string)

  /** A row of a reading query: columns `Id`, `Timestamp`, `Value`, `Quality`. */
  datatype ReadingRow = ReadingRow(id: string, timestamp: DateTime, value: real, quality: int)

  /**
   * A row as the historian's table-valued read functions produce it, before
   * the query's select list renames and rewrites its columns.
   */
  datatype StoredReading = StoredReading(tagname: string, timestamp: DateTime, value: real, quality: int)

  /** The select list `REPLACE(tagname, '//', '/') [Id], Timestamp, value, quality`. */
  function SelectReading(s: StoredReading): ReadingRow
  {
    ReadingRow(Collapse(s.tagname), s.timestamp, s.value, s.quality)
  }

  /**
   * A row whose stored tag name is the escaped id the client sent comes back
   * under the caller's own id.
   */
  lemma EchoedTagnameIsCallerId(id: string, s: StoredReading)
    requires s.tagname == Escape(id)
    ensures SelectReading(s).id == id
  {
    CollapseEscape(id);
  }

  /** The catalog comprehension: one `Tag` per row, its three columns copied. */
  function TagsOf(rows: seq<TagRow>): (tags: seq<Tag>)
    ensures |tags| == |rows|
    ensures forall i :: 0 <= i < |rows| ==>
      tags[i].id == rows[i].id && tags[i].description == rows[i].description && tags[i].units == rows[i].units
  {
    if rows == [] then [] else [Tag(rows[0].id, rows[0].description, rows[0].units)] + TagsOf(rows[1..])
  }

  /**
   * `TagReading(row['Value'], tz.localize(ts), row['Quality'])`, where `ts` is
   * the row's timestamp, with its microseconds zeroed first when
   * `dropMicroseconds` is set (the interpolated query).
   */
  function ReadingOf(r: ReadingRow, tz: TimeZone, dropMicroseconds: bool): TagReading
  {
    TagReading(r.value, Localize(if dropMicroseconds then WithoutMicroseconds(r.timestamp) else r.timestamp, tz), r.quality)
  }

  /** One reading per row, in row order. */
  function ReadingsOf(rows: seq<ReadingRow>, tz: TimeZone, dropMicroseconds: bool): (rs: seq<TagReading>)
    ensures |rs| == |rows|
    ensures forall i :: 0 <= i < |rows| ==> rs[i] == ReadingOf(rows[i], tz, dropMicroseconds)
  {
    if rows == [] then [] else [ReadingOf(rows[0], tz, dropMicroseconds)] + ReadingsOf(rows[1..], tz, dropMicroseconds)
  }

  /** Every reading is in the zone it was localized to, and with its row's value and quality. */
  lemma ReadingsAreLocalized(rows: seq<ReadingRow>, tz: TimeZone, dropMicroseconds: bool, i: int)
    requires 0 <= i < |rows|
    ensures ReadingsOf(rows, tz, dropMicroseconds)[i].timestamp.zone == tz
    ensures ReadingsOf(rows, tz, dropMicroseconds)[i].value == rows[i].value
    ensures ReadingsOf(rows, tz, dropMicroseconds)[i].quality == rows[i].quality
    ensures dropMicroseconds ==> ReadingsOf(rows, tz, dropMicroseconds)[i].timestamp.local == WithoutMicroseconds(rows[i].timestamp)
    ensures dropMicroseconds ==> ReadingsOf(rows, tz, dropMicroseconds)[i].timestamp.local.microsecond == 0
    ensures !dropMicroseconds ==> ReadingsOf(rows, tz, dropMicroseconds)[i].timestamp.local == rows[i].timestamp
  {
  }

  lemma ReadingsOfAppend(rows: seq<ReadingRow>, r: ReadingRow, tz: TimeZone, dropMicroseconds: bool)
    ensures ReadingsOf(rows + [r], tz, dropMicroseconds) == ReadingsOf(rows, tz, dropMicroseconds) + [ReadingOf(r, tz, dropMicroseconds)]
  {
    var a := ReadingsOf(rows + [r], tz, dropMicroseconds);
    var b := ReadingsOf(rows, tz, dropMicroseconds) + [ReadingOf(r, tz, dropMicroseconds)];
    assert |a| == |b|;
    forall i | 0 <= i < |a| ensures a[i] == b[i] {
      if i < |rows| { assert (rows + [r])[i] == rows[i]; }
    }
  }
}
