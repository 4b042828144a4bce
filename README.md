# SQLite.viewer in Dafny

This project models the core of SQLite.viewer, an in-app SQLite browser for iOS.
A browser page talks to the app over a WebSocket. The app answers three requests:
`databases`, `tables` and `rows`. It also broadcasts every SQL statement that it
runs on a database it opened itself.

There are three modules:

- `Values` (values.dfy) holds the engine's cells (`SqlValue`) and the
  `[String: Any]` payloads (`Json`). It also holds Swift's dictionary-assignment
  rule, in which the last write wins and assigning `nil` removes the key
  (`Put`, `Assigned`), and the encoder's test (`Serializable`). The encoder
  rejects `Data`.
- `Controller` (database_controller.dfy) models `DatabaseController` as a class.
  Its fields are the display-name registry `mappedDbNames`, the injected
  in-memory connection, whether a query listener is installed, and the
  identifier counter that stands for `UUID()`. Each method that shapes data is
  proved equal to a specification function of the old state (`TableList`,
  `TableData`, `RawQuery`, `Select`, `DescribeTable`). The lemmas state what
  the source promises about those functions. The SQL engine is an oracle, the
  datatype `Engine`. Each result is a `Step`: the outcome, the statements
  traced on the way, and the next identifier.
- `Viewer` (sqlite_viewer.dfy) models `SQLiteViewer` as a class whose
  `connected` map holds `Session` objects. Each session records the messages
  written to it. `Route` decodes a request dictionary into a `Request`, and
  `OnText` handles one text message. Every message goes to every connected
  session. The handling of a message ends either `Handled` or `Crashed`, because
  `fatalError`, a failed `as!` and encoding a value the encoder refuses all stop the app.
  A crash sets the viewer's `stopped` flag, and the callbacks require it unset.

## Model

| member | source | states |
|---|---|---|
| Values.AssignedLastWins | Sources/DatabaseController.swift:118-124 | after a series of subscript assignments, a key is present iff its last assignment was not nil, and then it holds that last value |
| Values.AssignedKeys | Sources/DatabaseController.swift:17-20 | when no assigned value is nil, the keys are exactly the keys written |
| Values.DistinctKeysCount | Sources/DatabaseController.swift:17-20 | distinct keys give as many entries as there were writes |
| Values.SerializableInsert | Sources/JSONConvertors.swift:11-13 | a dictionary with one new key can be encoded iff the old dictionary and the new value can |
| Controller.NameMapLastWins | Sources/DatabaseController.swift:17-20 | a name is a registry key iff it is the display name of some input path, and then it maps to the last such path; no later path has that name |
| Controller.NameMapSize | Sources/DatabaseController.swift:17-20 | the registry keys are exactly the display names; there are as many keys as distinct display names, and as many as paths when the names are distinct |
| Controller.DatabaseController.constructor | Sources/DatabaseController.swift:12-21 | the loop leaves the registry equal to the last-write-wins map of display names to paths; no listener is installed and no identifier has been drawn |
| Controller.DatabaseController.ListenQueries | Sources/DatabaseController.swift:23-25 | a listener is installed |
| Controller.DatabaseController.FreshToken | Sources/DatabaseController.swift:57 | returns the current identifier and advances the counter by one, so no identifier is handed out twice |
| Controller.DatabaseController.OpenConnection | Sources/DatabaseController.swift:27-40 | an injected connection answers every name unchanged; otherwise the call is fatal iff the name is not registered; it throws iff opening the mapped path fails; and on success it is an on-disk connection at exactly the mapped path, traced iff a listener is installed |
| Controller.DatabaseController.GetDatabases | Sources/DatabaseController.swift:42-44 | returns each registry key exactly once and nothing else, so its length is the number of keys |
| Controller.RowDictLastWins | Sources/DatabaseController.swift:127-136 | a column name is in a row's dictionary iff the last column of that name is not NULL, and then it holds that column's value |
| Controller.RowDictAt | Sources/DatabaseController.swift:130-134 | with distinct column names, each column is present iff its cell is not NULL, and it holds the cell's value |
| Controller.RowDictValues | Sources/DatabaseController.swift:120-122 | every value in a row's dictionary is the value of one of the row's cells |
| Controller.TableInfoExtractor | Sources/DatabaseController.swift:127-136 | the loop builds the row's dictionary under the last-write-wins rule |
| Controller.ColumnsValues | Sources/DatabaseController.swift:114-125 | the column names in order, and the row's dictionary with `__id` set to the identifier drawn |
| Controller.DatabaseController.GetTableList | Sources/DatabaseController.swift:46-70 | the nested loops produce the outcome, the trace and the counter of the table-list specification |
| Controller.DatabaseController.TableDescriptor | Sources/DatabaseController.swift:53-66 | describing one table produces the outcome, trace and counter of the one-table specification: a failed `table_info` throws, a failed count is fatal, and a missing count becomes 0 |
| Controller.DescribeTablesStops | Sources/DatabaseController.swift:54-60 | the first table that fails ends the listing with that failure; later tables are not described |
| Controller.DescriptorShape | Sources/DatabaseController.swift:61-66 | a descriptor has exactly the keys `__id`, `tableName`, `count` and `columns`; `columns` holds one entry per `table_info` row, in order, each with its own `__id` |
| Controller.DescribeTablesShape | Sources/DatabaseController.swift:52-67 | a successful listing holds one descriptor per catalog name, in catalog order, each built from that table's `table_info` rows and count (0 when none) |
| Controller.DescribeTablesTokens | Sources/DatabaseController.swift:52-67 | the counter never goes back, and a successful listing has one descriptor per name |
| Controller.DescribeTablesIds | Sources/DatabaseController.swift:55-62 | the `__id`s of all descriptors and their columns, read in order, are consecutive fresh identifiers, so they are pairwise distinct |
| Controller.DatabaseController.GetTableData | Sources/DatabaseController.swift:72-90 | the successive appends build the statement of `TableQuery`; the result equals the table-data specification |
| Controller.TableQueryPieces | Sources/DatabaseController.swift:81-85 | the statement is `SELECT * FROM '<table>'` followed by the WHERE, ORDER BY, LIMIT and OFFSET pieces, in this order, each present iff its argument is, with the argument verbatim |
| Controller.TableDataTracesItsQuery | Sources/DatabaseController.swift:81-87 | on a registered database with a listener, when the file opens, the only statement traced is the assembled query |
| Controller.TableDataShape | Sources/DatabaseController.swift:87-89 | a successful result is the shaped rows plus a fresh `__id`, and an empty result is the dictionary holding only `__id` |
| Controller.TableDataWithBlob | Sources/DatabaseController.swift:87-89 | a blob in the last column of a row, under a name other than `__id`, makes the result impossible to encode |
| Controller.DatabaseController.ExecuteRawQuery | Sources/DatabaseController.swift:92-101 | equals the raw-query specification |
| Controller.RawQueryPaths | Sources/DatabaseController.swift:95-100 | a query whose lowercased text contains `select` goes the select path; any other query, when it succeeds, returns only `affected_rows` with the engine's change count |
| Controller.IsSelectIgnoresCase | Sources/DatabaseController.swift:95 | lowercasing is idempotent, so the test reads a query and its lowercased text alike |
| Controller.IsSelectMixedCase | Sources/DatabaseController.swift:95 | a mixed-case `SeLeCt` statement takes the select path |
| Controller.IsSelectMention | Sources/DatabaseController.swift:95 | an UPDATE that mentions `select` in a string literal also takes the select path |
| Controller.IsSelectRejectsDelete | Sources/DatabaseController.swift:95 | a DELETE statement takes the run path |
| Controller.DatabaseController.SelectQuery | Sources/DatabaseController.swift:103-111 | the loop over rows produces the select specification: a throw when the engine fails, and otherwise the shaped rows with one identifier per row |
| Controller.SelectDataEmpty | Sources/DatabaseController.swift:104-105 | the payload is the empty dictionary exactly when the query returned no rows |
| Controller.SelectDataShape | Sources/DatabaseController.swift:103-124 | with rows, the result has exactly `columns` and `rows`; `columns` lists the first row's names; `rows` has one entry per row, in order, each with a distinct `__id` and each named column under the last-write-wins rule |
| Controller.SelectDataSerializable | Sources/DatabaseController.swift:107-110 | a result without blob cells can be encoded |
| Controller.SelectDataSerializableIff | Sources/DatabaseController.swift:107-123 | the payload can be encoded iff no row dictionary holds a blob under a key other than `__id`; a blob that a later column of the same name overwrites, or that the `__id` write replaces, never reaches the payload |
| Controller.SelectDataWithBlob | Sources/DatabaseController.swift:118-124 | a blob in the last column of a row, under a name other than `__id`, makes the result impossible to encode |
| Controller.InjectedConnectionIsNeverTraced | Sources/DatabaseController.swift:28 | with an injected connection that has no listener, every name resolves to it and the table list and table data trace nothing |
| Controller.UntracedTables | Sources/DatabaseController.swift:52-67 | describing tables on an untraced connection traces nothing |
| Viewer.Route | Sources/SQLiteViewer.swift:45-52 | a routed request carries the request's `requestId` when that is a string, and `""` otherwise |
| Viewer.RouteReadsFields | Sources/SQLiteViewer.swift:46-158 | on any decoded dictionary, the `type` string picks `databases`, `tables` or `rows` (both directions); a `tables` request needs `databaseName` as a string, and a `rows` request needs `databaseName` and `tableName` as strings, and otherwise it is not served; the routed names are those strings; `order`, `limit`, `offset` and `clause` are the `as? String` reads, nil when absent or not a string |
| Viewer.RouteKeepsKind | Sources/SQLiteViewer.swift:46-49 | only the types `databases`, `tables` and `rows` are routed, each to its own fetch |
| Viewer.RouteRoundTrip | Sources/SQLiteViewer.swift:45-52 | the request message built from a request routes back to that same request |
| Viewer.RowsMessageFields | Sources/SQLiteViewer.swift:152-159 | a rows message carries each field as the handler reads it, with absent optional fields read as nil |
| Viewer.RouteReadsOnlyRequestKeys | Sources/SQLiteViewer.swift:142-159 | routing reads only the string values of the request's known keys |
| Viewer.StringsMembership | Sources/SQLiteViewer.swift:135 | the database list sent holds exactly the names listed |
| Viewer.Session.constructor | Sources/SQLiteViewer.swift:58 | a new session has been written nothing |
| Viewer.SQLiteViewer.Start | Sources/SQLiteViewer.swift:72-78 | a controller without an injected connection, with the registry of the given paths and a listener installed, no session yet, and not stopped |
| Viewer.SQLiteViewer.StartWithInMemoryConnection | Sources/SQLiteViewer.swift:80-90 | the same, with the given in-memory connection injected and untraced |
| Viewer.SQLiteViewer.OnConnect | Sources/SQLiteViewer.swift:58-60 | while the app runs, the session is stored under its hash, and every other entry is unchanged |
| Viewer.SQLiteViewer.OnDisconnect | Sources/SQLiteViewer.swift:62-64 | while the app runs, only the session's hash key is removed |
| Viewer.SQLiteViewer.Send | Sources/SQLiteViewer.swift:23-26 | an encodable payload is appended to what every connected session was written; an unencodable one reaches no session |
| Viewer.SQLiteViewer.BroadcastTrace | Sources/SQLiteViewer.swift:36-38 | every session receives one `sql` event per traced statement, in order |
| Viewer.SQLiteViewer.Respond | Sources/SQLiteViewer.swift:44-55 | the traced statements, then the reply if the controller succeeded and the reply can be encoded; a crash otherwise |
| Viewer.SQLiteViewer.FetchDatabases | Sources/SQLiteViewer.swift:131-139 | replies with every registered name once, under type `databases` and the request's `requestId` |
| Viewer.SQLiteViewer.FetchTables | Sources/SQLiteViewer.swift:141-150 | reacts as the table-list specification's outcome and trace dictate, under type `tables` |
| Viewer.SQLiteViewer.FetchRows | Sources/SQLiteViewer.swift:152-173 | passes order, limit, offset and clause unchanged to the table-data specification and reacts to it under type `rows` |
| Viewer.SQLiteViewer.OnText | Sources/SQLiteViewer.swift:41-56 | handling a message while the app runs does what `React` prescribes, and every connected session receives exactly the messages sent; the app is stopped afterwards iff the handling crashed, and a stopped app runs no further callback |
| Viewer.ConcludeShape | Sources/SQLiteViewer.swift:134-138 | a request is handled iff the controller succeeded and its data can be encoded; the `sql` events come first, and the reply is last and only when handled |
| Viewer.RepliesAnswerTheirRequest | Sources/SQLiteViewer.swift:133-137 | a handled request sends `sql` events and then one reply, whose `type` is the request's and whose `requestId` is the request's string or `""` |
| Viewer.DatabasesAlwaysAnswered | Sources/SQLiteViewer.swift:131-139 | a `databases` request is always handled, with one message listing exactly the registered names and no identifier drawn |
| Viewer.InjectedSetupSendsOnlyReplies | Sources/SQLiteViewer.swift:80-90 | with the injected connection, no `sql` event is broadcast: a request sends its reply or nothing |
| Viewer.ListenerBroadcastsRowsQuery | Sources/SQLiteViewer.swift:36-38 | a rows request on a registered on-disk database whose file opens broadcasts the assembled query first, followed by the reply when handled |
| Viewer.BlobRowsStopTheApp | Sources/SQLiteViewer.swift:168-172 | a rows result with a blob in the last column of a row, under a name other than `__id`, stops the app after the `sql` events, and no reply is sent |
| Viewer.UsersRowsRequest | Tests/SQLiteViewerTests/Tests.swift:117-125 | the test's rows message routes to table `users` of `test.sqlite`, ordered by `id asc`, with limit 20, offset 0 and no clause |

## Left out

- The HTTP server, the Wi-Fi address lookup, the static asset routes, `stop` and `deinit` (Sources/SQLiteViewer.swift:28-34, 92-129, 175-177) are network and file I/O.
- JSON text is not modelled. `OnText` receives the dictionary that `dictionaryFrom(string:)` decodes. Text that does not decode to a dictionary becomes the empty dictionary, which routes to `Unroutable`. `Json` has no constructor for the `NSNull` and `NSNumber` booleans that JSON `null`, `true` and `false` decode to. Routing treats them like any other value that is not a string: `as? String` reads nil and `as!` fails. So leaving them out changes no routing. `send` is modelled by its one observable test, `Serializable`: `Data` cannot be encoded, and encoding it stops the app.
- The SQL engine is an oracle `Engine` of total functions: table names, `table_info` rows, the count, query rows, `run` with its change count, and open errors. Its semantics are not modelled.
- `UUID().uuidString` is a counter `nextToken`. Uniqueness is proved instead of being probable.
- `FileManager.displayName(atPath:)` is a function parameter.
- Concurrency, the asynchronous trace callback and `weak self` are left out; calls are sequential. The trace listener is modelled as a list of statements that the controller returns. The viewer broadcasts that list, in order, before the reply.
- The module-level `connected` dictionary is a field of the viewer object. Restarting the `shared` singleton is not modelled.
- The model traces a statement even when the engine rejects it. In SQLite's statement trace, a statement that fails to prepare is never traced. The listener's exact timing is not modelled.
- The table-names statement is traced with its `?` placeholder, not with the bound value.
- Integers are unbounded and reals are exact; `Int64` bounds and NaN are not modelled.
- `executeRawQuery` is modelled and proved. No request type reaches it.
- `lowercased()` is modelled for ASCII letters only.
- Strings are compared code point by code point, while Swift compares `String` values, dictionary keys and `contains` up to Unicode canonical equivalence. Two canonically equivalent names with different encodings (a precomposed `é` and `e` followed by a combining accent) are one key, or a match, in the source and two in the model. This affects `NameMap`, `NameMapLastWins` and `NameMapSize` (two such display names are one registry key in the source), `GetDatabases` (one name listed, not two), `OpenConnection` (the other encoding finds the database in the source and is fatal in the model), `RowDict` with the lemmas about it (two such column names are one dictionary key), and `IsSelect`.
- The `print` of each text frame and the start-up banner (Sources/SQLiteViewer.swift:30-32, 42) are console output.
- The crash reason strings are illustrative.
- Controller.DatabaseController.GetDatabases: the order in which the dictionary lists its keys is not modelled, so callers see only a listing with each key once (`Listing`).
- Viewer.Route: its own contract states only the `requestId` rule. How the fields of any decoded dictionary become the request is stated by RouteReadsFields, with RouteKeepsKind and RouteRoundTrip.
- The model follows the code where the code and its documentation differ:
  - connections are opened anew on every call and never cached;
  - an empty result of `getTableData` is the dictionary holding only `__id`;
  - NULL cells, and NULL `table_info` fields, are absent from the dictionaries;
  - a blob cell makes the encoder stop the app;
  - every controller error stops the app, and no error response is sent;
  - of several paths with the same display name, the last wins.
