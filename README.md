# pydataparc historian client, modelled in Dafny

`pydataparc` is a client for a dataPARC plant historian reached through SQL
Server. A `Historian` object holds connection settings, resolved from its
constructor's arguments or from the environment. Each of its six read
operations opens one connection, runs one query against the historian's
table-valued read functions or its tag tables, and maps the rows
into `Tag` and `TagReading` values. Tag ids are escaped on the way in, with
every `/` doubled. On the way out, the query's `REPLACE(tagname, '//', '/')`
collapses them again. The five read queries bind their ids as parameters.
The three ranged reads also bind their localized start and end times, and the
interpolated read its aggregate and step size. The two current reads use the
server's `CURRENT_TIMESTAMP`, written into the SQL text. The catalog query of `get_all_tags` takes no parameters: it splices
the site abbreviation into its SQL text.

The model has six modules:

- `Wrappers` (`wrappers.dfy`) has the `Option` and `Result` types the other modules return.
- `Escaping` (`escaping.dfy`) has the request-side escaping (`str.replace('/', '//')`), the `';'` join of
  batched ids, and the response-side SQL `REPLACE`. Its main lemma is the round trip: collapse after escape
  gives back every string.
- `Records` (`records.dfy`) has naive timestamps (whole seconds plus a microsecond field), time zones and
  localization, `Tag`, `TagReading` with `quality_str`, and the rows the cursor yields.
- `Grouping` (`grouping.dfy`) has the dict-of-lists loop of the two batched range reads, as a method proved
  against a reference definition. The reference maps each id to the filter of the rows carrying that id. It
  also has the last-row-wins dict of the batched current read. The lemmas prove the key set, arrival order,
  non-empty groups and the total count.
- `Configuration` (`configuration.dfy`) has the resolution of the constructor's settings, with the environment
  passed in as a `map<string, string>`.
- `HistorianClient` (`historian.dfy`) has the `Historian` class, its constructor, and the six operations.

The keyword defaults of the operations are constants in `HistorianClient`:
`DEFAULT_ESCAPE_SLASHES` (true, for both `escape_slashes` and `escape_slash`), `DEFAULT_STEP_SIZE` (60),
`DEFAULT_AGGREGATE` ("AVERAGE") and `DEFAULT_REMOVE_MICROSECONDS` (true). The model's operations take every
argument explicitly; a call that relies on a default passes the constant.

The database is a parameter. Each operation takes the rows its query returns and gives back an `Exchange`.
An `Exchange` holds the `Request` the operation sends (the `pymssql.connect` arguments and the query with the
values it carries) and the operation's result. A `Request` therefore stands for "a connection was opened". The
`ValueError` of `get_tag_readings` is a `Failure` that carries no request, so the model states that the range
check happens before any connection.

Localization attaches the configured zone to the wall-clock time, and readings keep their value and quality.
Values are `real`s that are only copied.

Behaviour of the code worth noting:

- A missing environment key raises `KeyError(key)`, modelled as `MissingEnvironmentKey(key)`.
- A bad range raises `ValueError("A valid time range is required.")`.
- Only `get_tag_readings` checks the range. The batched `get_tags_readings` and
  `get_tags_readings_interpolated` send whatever range they are given.

## Model

| member | source | states |
|---|---|---|
| `Records.TagReading.QualityStr` | pydataparc/historian.py:26-36 | The result is "Good" exactly when the quality is 192, "Bad" exactly when it is 0, and "Unknown" exactly when it is neither. This covers every integer, negative ones and 194 included. |
| `Escaping.EscapeUnchanged` | pydataparc/historian.py:78-79 | Escaping leaves an id unchanged if and only if the id has no `/`. |
| `Escaping.EscapeKeepsOtherCharacters` | pydataparc/historian.py:78-79 | Dropping the slashes from the escaped id gives the same string as dropping them from the original id: every other character stays, in order. |
| `Escaping.EscapeDoublesSlashes` | pydataparc/historian.py:78-79 | The escaped id has exactly twice as many `/` as the original. It is longer by exactly the number of `/`. |
| `Escaping.EscapeAppend` | pydataparc/historian.py:130-131 | Escaping a concatenation gives the concatenation of the escaped parts. |
| `Escaping.Collapse` | pydataparc/historian.py:84 | The SQL `REPLACE(tagname, '//', '/')` as a left-to-right scan that never overlaps. It never makes a string longer. |
| `Escaping.CollapseEscape` | pydataparc/historian.py:79-84 | For every string `s`, `Collapse(Escape(s)) == s`: the SQL collapse undoes the client's escaping. |
| `Escaping.EscapeInjective` | pydataparc/historian.py:104-109 | Two ids that escape to the same string are equal, so escaping never merges two distinct ids. |
| `Escaping.EscapeEach` | pydataparc/historian.py:104-105 | The list comprehension keeps the length of the list and escapes each id in place. |
| `Escaping.EscapeJoin` | pydataparc/historian.py:157-168 | For any separator other than `/`, escaping each id and then joining gives the same string as joining and then escaping. |
| `Escaping.PrepareIds` | pydataparc/historian.py:104-114 | The id string a batched read sends is the `';'`-join of the ids, escaped when the flag is set. It is the plain join when the flag is not set. |
| `Records.WithoutMicroseconds` | pydataparc/historian.py:205 | `replace(microsecond=0)` keeps the second, zeroes the microsecond, and never moves the time later. |
| `Records.EchoedTagnameIsCallerId` | pydataparc/historian.py:79-84 | A stored row whose tag name is the escaped id the client sent comes back with the caller's own id in its `Id` column. |
| `Records.TagsOf` | pydataparc/historian.py:69 | There is one `Tag` per row, in row order, and each has the row's `Id`, `Description` and `Units`. |
| `Records.ReadingsOf` | pydataparc/historian.py:143 | There is one reading per row, in row order, and each is built from that row. |
| `Records.ReadingsAreLocalized` | pydataparc/historian.py:142-143 | Every produced reading carries the configured time zone and the value and quality of its row. Its wall-clock time is the row's own, or for the interpolated form the row's with the same second and microsecond 0. |
| `Grouping.LatestById` | pydataparc/historian.py:115 | The dict's keys are exactly the ids in the rows. For each id, the entry is the reading of the last row with that id, because later rows overwrite earlier ones. |
| `Grouping.GroupByTag` | pydataparc/historian.py:170-176 | The insert-or-append loop gives exactly `Grouped(rows)`: each id in the rows maps to the readings of that id's rows, in arrival order. |
| `Grouping.GroupedAppend` | pydataparc/historian.py:172-175 | One more row appends its reading to the list of its id, or starts a one-element list when the id is new. Every other entry is unchanged. |
| `Grouping.MatchingMembers` | pydataparc/historian.py:171-175 | A row is in the list for `id` exactly when it is one of the rows and carries `id`. |
| `Grouping.MatchingEmpty` | pydataparc/historian.py:172-173 | The list for an id is empty exactly when no row carries that id. |
| `Grouping.GroupedKeysAndNonEmpty` | pydataparc/historian.py:170-176 | The key set of the grouping is exactly the set of row ids, and no list in it is empty. |
| `Grouping.GroupedTotal` | pydataparc/historian.py:170-176 | The lengths of the lists sum to the number of rows: no row is lost or counted twice. |
| `Grouping.LatestIsLastOfGroup` | pydataparc/historian.py:109-115 | Every id in the rows is in both the batched current-reading dict and the raw grouping of the same rows. Its current reading is the last element of its group. |
| `Configuration.ResolveConfig` | pydataparc/historian.py:46-53 | Resolution succeeds exactly when server, user, password and abbreviation each have an explicit value or an environment entry. Each field takes its explicit argument if given, otherwise the environment value. The database is the argument (default `ctc_config`). The time zone is the argument, else `DATAPARC_TIMEZONE`, else "UTC". On failure the error names the first missing key, in constructor order. |
| `Configuration.ExplicitSettingsNeedNoEnvironment` | pydataparc/tests/test_historian.py:16 | `Historian('', '', '', '')` succeeds in any environment and keeps the four empty strings and the database `ctc_config`. |
| `HistorianClient.Historian.constructor` | pydataparc/historian.py:48-53 | The object holds exactly the resolved settings. |
| `HistorianClient.Historian.Create` | pydataparc/historian.py:46-53 | The field-by-field `__init__` fails exactly when `ResolveConfig` fails, with the same missing key. When it succeeds, the new object holds the settings `ResolveConfig` gives. |
| `HistorianClient.Historian.GetAllTags` | pydataparc/historian.py:55-69 | One connection with the client's settings runs the catalog query for the client's abbreviation. The result has one `Tag` per row, with the fields copied verbatim. |
| `HistorianClient.Historian.GetCurrentTagReading` | pydataparc/historian.py:71-95 | The raw read is sent with the id escaped exactly when `escape_slashes` is set, and both bounds are `CURRENT_TIMESTAMP`. The result is `None` exactly when there are no rows. Otherwise it is the reading of the last row, localized to the client's zone. |
| `HistorianClient.Historian.GetCurrentTagsReadings` | pydataparc/historian.py:97-115 | The request carries the prepared `';'`-joined ids. The dict's keys are exactly the row ids, and each entry comes from the last row with that id. |
| `HistorianClient.Historian.GetTagReadings` | pydataparc/historian.py:117-144 | It fails exactly when `start_time <= end_time` does not hold, with the `ValueError` message, and then sends no request. Otherwise it sends the escaped id and both bounds localized, and returns one reading per row, in row order. |
| `HistorianClient.Historian.GetTagsReadings` | pydataparc/historian.py:146-176 | It sends the prepared ids with both bounds localized, with no range check. The result is the grouping of the rows by id, each group in arrival order. |
| `HistorianClient.Historian.GetTagsReadingsInterpolatedAsWritten` | pydataparc/historian.py:178-208 | The interpolated query carries the aggregate and the step size. The result is the grouping of the rows, and every timestamp has microsecond 0, whatever `remove_microseconds` is. |
| `HistorianClient.Historian.GetTagsReadingsInterpolated` | pydataparc/historian.py:178-208 | This is the same request and grouping, but microseconds are zeroed exactly as `remove_microseconds` asks. When it is set, every timestamp has microsecond 0. With the default `remove_microseconds=True`, the result is the as-written one. |
| `HistorianClient.RemoveMicrosecondsFlagIgnored` | pydataparc/historian.py:178-207 | For a row at microsecond 5, the as-written grouping differs from the grouping that `remove_microseconds=False` asks for. |
| `HistorianClient.CurrentReadingOfQuality194` | pydataparc/tests/test_historian.py:21-28 | A single row of value 1.0 and quality 194 gives a reading of value 1.0 whose quality is "Unknown". |

## Left out

- Connections, cursors and SQL execution (`pymssql.connect`, `cursor.execute`, `fetchall`) are foreign I/O. The rows a query returns are a parameter, and the request is recorded as a value. Closing the connection when the `with` block exits is not modelled.
- The catalog query of `get_all_tags` splices the site abbreviation into its SQL text with an f-string instead of binding it, so a `'` in the abbreviation changes the query. The model records only the abbreviation's value in `TagCatalog` and does not model the SQL text or its injection.
- The server-side parts of each query are not modelled: the `shistorianquality != 'NoBound'` filter, the row order the read functions deliver, and the `Id` column of the catalog query (abbreviation, source name and tag short name joined by dots). The rows are taken as the cursor yields them.
- `pytz` is a foreign library. Looking up an unknown zone name (which raises) is not modelled. Neither is the UTC offset and daylight-saving resolution that `localize` performs: `Records.Localize` only attaches the zone.
- Python's errors for comparing a naive with an aware datetime, or for localizing an already aware one, are not modelled. The model's `DateTime` is always naive.
- Python dicts keep insertion order. The model's `map` has no order, so the key order of the returned dicts is not captured.
- Reading values are floats that are only copied. They are modelled as `real`, with no float semantics.
- `database` is modelled as a `string`, so passing `database=None` explicitly is not modelled.
- `tag_ids` may be any iterable. The model takes a sequence, so one-shot generators are not modelled.
- An id that contains `;` is split by the server's read function. That splitting is not modelled.
- `TagReading.__str__` and `__repr__` are display formatting with two-decimal floats and `strftime`. They are not modelled.
- The `__main__` sample script is a demo that uses `dotenv`, `pandas` and `stdev`. It is not modelled.
- The test that expects a real connection failure with empty credentials is not modelled, because it depends on the network.

## Findings

| source | as written | input that shows it | evidently intended | confidence | as-written member | corrected member |
|---|---|---|---|---|---|---|
| pydataparc/historian.py:178-207 | `get_tags_readings_interpolated` takes `remove_microseconds=True` but never reads it, so every timestamp has its microseconds zeroed. The default True hides this: the outcomes differ only when a caller passes False explicitly | `remove_microseconds=False` and a row at microsecond 5: the returned timestamp has microsecond 0 | microseconds zeroed only when `remove_microseconds` is true | medium, not executed | `HistorianClient.Historian.GetTagsReadingsInterpolatedAsWritten`, `HistorianClient.RemoveMicrosecondsFlagIgnored` | `HistorianClient.Historian.GetTagsReadingsInterpolated` |
