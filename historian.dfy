/**
 * The `Historian` client: its configuration, and its six read operations.
 * Each operation opens one connection, runs one query and maps the rows the
 * cursor yields. The database is not modelled: an operation takes the rows
 * its query returns as a parameter, and reports the request it sends (the
 * connection settings and the query with its parameters). An operation that
 * raises before connecting reports no request.
 */
module HistorianClient {
  import opened Wrappers
  import opened Escaping
  import opened Records
  import opened Grouping
  import opened Configuration

  /** The arguments of `pymssql.connect`. */
  datatype ConnectionParams = ConnectionParams(server: string, user: string, password: string, database: string)

  /** A time bound of a raw read: the server's `CURRENT_TIMESTAMP`, or a localized time. */
  datatype Bound = CurrentTimestamp | At(time: AwareDateTime)

  /**
   * The query an operation runs and the values it carries. The read queries
   * bind theirs as parameters; the catalog query splices the abbreviation
   * into its SQL text, and only the abbreviation's value is recorded.
   */
  datatype Query =
    | TagCatalog(abbreviation: string)
    | ReadRawTags(tagIds: string, from: Bound, to: Bound)
    | ReadInterpolatedTags(tagIds: string, start: AwareDateTime, end: AwareDateTime, aggregate: string, stepSize: int)

  /** One connection and the one query run on it. */
  datatype Request = Request(connection: ConnectionParams, query: Query)

  /** What an operation sent, and what it returned. */
  datatype Exchange<T> = Exchange(request: Request, result: T)

  /** The `ValueError` of `get_tag_readings`. */
  datatype HistorianError = InvalidTimeRange(message: string)

  const INVALID_RANGE_MESSAGE: string := "A valid time range is required."

  // Keyword defaults of the operations. The operations take every argument
  // explicitly; these record the Python defaults a call that omits them gets.
  /** Ids are escaped unless the caller says otherwise (`escape_slashes`, `escape_slash`). */
  const DEFAULT_ESCAPE_SLASHES: bool := true
  /** Default `step_size` of the interpolated read, in seconds; recorded only. */
  const DEFAULT_STEP_SIZE: int := 60
  /** Default `aggregate` of the interpolated read; recorded only. */
  const DEFAULT_AGGREGATE: string := "AVERAGE"
  /** Default `remove_microseconds`: with it, the ignored flag and the zeroing agree. */
  const DEFAULT_REMOVE_MICROSECONDS: bool := true

  class Historian {
    const server: string
    const user: string
    const password: string
    const database: string
    const abbreviation: string
    const timezone: TimeZone

    /** The resolved settings this client holds. */
    function Settings(): Config
    {
      Config(server, user, password, database, abbreviation, timezone)
    }

    /** Every operation connects with these. */
    function Connection(): ConnectionParams
    {
      ConnectionParams(server, user, password, database)
    }

    constructor (config: Config)
      ensures Settings() == config
    {
      server := config.server;
      user := config.user;
      password := config.password;
      database := config.database;
      abbreviation := config.abbreviation;
      timezone := config.timezone;
    }

    /**
     * `Historian.__init__`: each field from its argument, else from the
     * environment; a missing required environment key raises.
     */
    static method Create(args: Arguments, env: map<string, string>) returns (r: Result<Historian, ConfigError>)
      ensures r.Failure? <==> ResolveConfig(args, env).Failure?
      ensures r.Failure? ==> r.error == ResolveConfig(args, env).error
      ensures r.Success? ==> fresh(r.value) && r.value.Settings() == ResolveConfig(args, env).value
    {
      var server: string;
      if args.server.Some? {
        server := args.server.value;
      } else if SERVER_KEY in env {
        server := env[SERVER_KEY];
      } else {
        return Failure(MissingEnvironmentKey(SERVER_KEY));
      }
      var user: string;
      if args.user.Some? {
        user := args.user.value;
      } else if USERNAME_KEY in env {
        user := env[USERNAME_KEY];
      } else {
        return Failure(MissingEnvironmentKey(USERNAME_KEY));
      }
      var password: string;
      if args.password.Some? {
        password := args.password.value;
      } else if PASSWORD_KEY in env {
        password := env[PASSWORD_KEY];
      } else {
        return Failure(MissingEnvironmentKey(PASSWORD_KEY));
      }
      var database := args.database;
      var abbreviation: string;
      if args.siteAbbreviation.Some? {
        abbreviation := args.siteAbbreviation.value;
      } else if ABBREVIATION_KEY in env {
        abbreviation := env[ABBREVIATION_KEY];
      } else {
        return Failure(MissingEnvironmentKey(ABBREVIATION_KEY));
      }
      var zone := if args.timezone.Some? then args.timezone.value
                  else if TIMEZONE_KEY in env then env[TIMEZONE_KEY]
                  else DEFAULT_TIMEZONE;
      var h := new Historian(Config(server, user, password, database, abbreviation, TimeZone(zone)));
      return Success(h);
    }

    /** `get_all_tags`: one `Tag` per catalog row, fields copied, in row order. */
    function GetAllTags(rows: seq<TagRow>): (x: Exchange<seq<Tag>>)
      ensures x.request == Request(Connection(), TagCatalog(abbreviation))
      ensures |x.result| == |rows|
      ensures forall i :: 0 <= i < |rows| ==> x.result[i] == Tag(rows[i].id, rows[i].description, rows[i].units)
    {
      Exchange(Request(Connection(), TagCatalog(abbreviation)), TagsOf(rows))
    }

    /** `get_current_tag_reading`: `None` for no rows, else the last row's reading. */
    function GetCurrentTagReading(tagId: string, escapeSlashes: bool, rows: seq<ReadingRow>): (x: Exchange<Option<TagReading>>)
      ensures x.request == Request(Connection(), ReadRawTags(PrepareId(tagId, escapeSlashes), CurrentTimestamp, CurrentTimestamp))
      ensures x.result.None? <==> rows == []
      ensures rows != [] ==> x.result == Some(ReadingOf(rows[|rows| - 1], timezone, false))
    {
      var request := Request(Connection(), ReadRawTags(PrepareId(tagId, escapeSlashes), CurrentTimestamp, CurrentTimestamp));
      if rows == [] then Exchange(request, None)
      else Exchange(request, Some(ReadingOf(rows[|rows| - 1], timezone, false)))
    }

    /**
     * `get_current_tags_readings`: a dict keyed by the ids that occur in the
     * rows; a later row with the same id overwrites an earlier one.
     */
    function GetCurrentTagsReadings(tagIds: seq<string>, escapeSlash: bool, rows: seq<ReadingRow>): (x: Exchange<map<string, TagReading>>)
      ensures x.request == Request(Connection(), ReadRawTags(PrepareIds(tagIds, escapeSlash), CurrentTimestamp, CurrentTimestamp))
      ensures x.result.Keys == IdSet(rows)
      ensures forall i :: IsLastOfId(rows, i) ==> x.result[rows[i].id] == ReadingOf(rows[i], timezone, false)
    {
      Exchange(Request(Connection(), ReadRawTags(PrepareIds(tagIds, escapeSlash), CurrentTimestamp, CurrentTimestamp)),
               LatestById(rows, timezone))
    }

    /**
     * `get_tag_readings`: raises when `start_time <= end_time` fails, before
     * any connection is opened; otherwise one reading per row, in row order.
     */
    function GetTagReadings(tagId: string, start: DateTime, end: DateTime, escapeSlashes: bool, rows: seq<ReadingRow>)
      : (r: Result<Exchange<seq<TagReading>>, HistorianError>)
      ensures r.Failure? <==> !LessOrEqual(start, end)
      ensures r.Failure? ==> r.error == InvalidTimeRange(INVALID_RANGE_MESSAGE)
      ensures r.Success? ==> (r.value.request ==
        Request(Connection(), ReadRawTags(PrepareId(tagId, escapeSlashes), At(Localize(start, timezone)), At(Localize(end, timezone)))))
      ensures r.Success? ==> (|r.value.result| == |rows| &&
        forall i :: 0 <= i < |rows| ==> r.value.result[i] == ReadingOf(rows[i], timezone, false))
    {
      if !LessOrEqual(start, end) then Failure(InvalidTimeRange(INVALID_RANGE_MESSAGE))
      else
        var query := ReadRawTags(PrepareId(tagId, escapeSlashes), At(Localize(start, timezone)), At(Localize(end, timezone)));
        Success(Exchange(Request(Connection(), query), ReadingsOf(rows, timezone, false)))
    }

    /**
     * `get_tags_readings`: the rows grouped by id, each group in arrival
     * order. There is no range check here.
     */
    method GetTagsReadings(tagIds: seq<string>, start: DateTime, end: DateTime, escapeSlash: bool, rows: seq<ReadingRow>)
      returns (x: Exchange<map<string, seq<TagReading>>>)
      ensures x.request == Request(Connection(),
        ReadRawTags(PrepareIds(tagIds, escapeSlash), At(Localize(start, timezone)), At(Localize(end, timezone))))
      ensures x.result == Grouped(rows, timezone, false)
    {
      var query := ReadRawTags(PrepareIds(tagIds, escapeSlash), At(Localize(start, timezone)), At(Localize(end, timezone)));
      var result := GroupByTag(rows, timezone, false);
      x := Exchange(Request(Connection(), query), result);
    }

    /**
     * `get_tags_readings_interpolated` as written: grouped like
     * `get_tags_readings`, and every timestamp has its microseconds zeroed,
     * whatever `remove_microseconds` says, because the body never reads it.
     */
    method GetTagsReadingsInterpolatedAsWritten(tagIds: seq<string>, start: DateTime, end: DateTime, stepSize: int,
                                                 aggregate: string, escapeSlash: bool, removeMicroseconds: bool,
                                                 rows: seq<ReadingRow>)
      returns (x: Exchange<map<string, seq<TagReading>>>)
      ensures x.request == Request(Connection(),
        ReadInterpolatedTags(PrepareIds(tagIds, escapeSlash), Localize(start, timezone), Localize(end, timezone), aggregate, stepSize))
      ensures x.result == Grouped(rows, timezone, true)
      ensures forall id, k :: id in x.result && 0 <= k < |x.result[id]| ==> x.result[id][k].timestamp.local.microsecond == 0
    {
      var query := ReadInterpolatedTags(PrepareIds(tagIds, escapeSlash), Localize(start, timezone), Localize(end, timezone), aggregate, stepSize);
      var result := GroupByTag(rows, timezone, true);
      x := Exchange(Request(Connection(), query), result);
    }

    /**
     * `get_tags_readings_interpolated` with `remove_microseconds` honoured:
     * timestamps lose their microseconds only when the flag is set.
     */
    method GetTagsReadingsInterpolated(tagIds: seq<string>, start: DateTime, end: DateTime, stepSize: int,
                                       aggregate: string, escapeSlash: bool, removeMicroseconds: bool,
                                       rows: seq<ReadingRow>)
      returns (x: Exchange<map<string, seq<TagReading>>>)
      ensures x.request == Request(Connection(),
        ReadInterpolatedTags(PrepareIds(tagIds, escapeSlash), Localize(start, timezone), Localize(end, timezone), aggregate, stepSize))
      ensures x.result == Grouped(rows, timezone, removeMicroseconds)
      ensures removeMicroseconds ==>
        forall id, k :: id in x.result && 0 <= k < |x.result[id]| ==> x.result[id][k].timestamp.local.microsecond == 0
      ensures removeMicroseconds == DEFAULT_REMOVE_MICROSECONDS ==> x.result == Grouped(rows, timezone, true)
    {
      var query := ReadInterpolatedTags(PrepareIds(tagIds, escapeSlash), Localize(start, timezone), Localize(end, timezone), aggregate, stepSize);
      var result := GroupByTag(rows, timezone, removeMicroseconds);
      x := Exchange(Request(Connection(), query), result);
    }
  }

  /**
   * The ignored flag makes a difference: for a row at microsecond 5, the
   * as-written interpolated read (microseconds always zeroed) returns a
   * different dict from the one `remove_microseconds=False` asks for.
   */
  lemma RemoveMicrosecondsFlagIgnored(tz: TimeZone)
    ensures var row := ReadingRow("t", DateTime(0, 5), 1.0, 192);
      Grouped([row], tz, true) != Grouped([row], tz, false)
  {
    var row := ReadingRow("t", DateTime(0, 5), 1.0, 192);
    assert row in [row];
    assert "t" in IdSet([row]);
    assert Matching([row], "t") == [row] by {
      assert [row][..0] == [];
    }
    assert Grouped([row], tz, true)["t"][0].timestamp.local.microsecond == 0;
    assert Grouped([row], tz, false)["t"][0].timestamp.local.microsecond == 5;
  }

  /**
   * The case `test_returns_current_value` exercises: one row of quality 194
   * gives a reading with value 1.0 whose quality is "Unknown".
   */
  lemma CurrentReadingOfQuality194(h: Historian, now: DateTime)
    ensures var x := h.GetCurrentTagReading("test1", DEFAULT_ESCAPE_SLASHES, [ReadingRow("test1", now, 1.0, 194)]);
      x.result.Some? && x.result.value.value == 1.0 && x.result.value.QualityStr() == "Unknown"
  {
  }
}
