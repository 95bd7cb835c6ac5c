# loghead, modelled in Dafny

loghead collects logs from running programs into one SQLite store and hands
them to AI assistants over the Model Context Protocol (MCP). This project
models its core:

- the **store**: the projects, data streams, logs, vector index and
  `system_config` tables, with the foreign keys and cascades of the schema
  (`Tables`). On top of it sit the two `DbService` classes that use it: the
  server's (`CoreDb`) and the command line's, whose `addLog` runs in a
  transaction (`CliDb`);
- the **JWT service**, which creates the secret once, signs stream and MCP
  tokens and verifies them (`Auth`);
- the **HTTP API** of the server (`ApiServer`):
  - OTLP/JSON ingestion on `/v1/logs`;
  - plain ingestion on `/api/ingest`, whose entry normalisation lives in
    `Ingest`;
  - paging on `/api/logs`;
- the command line's **MCP server** (`McpServer`): the SSE transport and its
  session table, the resources and tools, and the plain HTTP routes;
- the command line's **`main`** (`CliMain`): argument checks, the commands
  and the line readers of `ingest` and `attach`;
- the **forwarders** that feed the API:
  - the terminal and docker ingestors, with their batching of ten lines or
    one second (`Batching`);
  - the stand-alone MCP client of the API (`McpClient`);
  - the browser extension's content script (`BrowserContent`).

JavaScript values are modelled as `Json.Value`, with the language's
truthiness, `||`, `?.`, `===`, `String(v)`, `parseInt`, object spread and
`JSON.stringify`/`JSON.parse` written out (`Json`, `Strings`).

Things outside the program are parameters:

- `randomUUID` and `CURRENT_TIMESTAMP` are the `n`-th answers of the oracles
  `uuid` and `clock`;
- the embedding service is a function from content to `Embedding`;
- the JWT library is a pair of functions, and what the service relies on
  from it is the predicate `Auth.Sound`;
- `fetch`, base64 decoding and `encodeURIComponent` are functions;
- standard input and the output of `docker logs -f` are sequences of lines;
- the random secret is a string argument.

Code that changes state is modelled as classes:

- `Tables.Database`, `Auth.AuthService`, the two `DbService` classes and
  `ApiServer.Server`;
- `McpServer.SseTransport` and `McpServer.McpHttp`;
- `Batching.Batcher` and `Batching.DockerIngestor`.

Their methods state the new state in terms of specification functions such
as `Tables.RecentLogs`, `Ingest.Normalise`, `ApiServer.OtlpRecords` and
`CliMain.LineEntries`. Lemmas then state what those functions promise.

The schema is taken from `packages/core/dist/db/migrate.js`:

- `PRAGMA foreign_keys = ON`;
- `ON DELETE CASCADE` from streams to projects and from logs to streams;
- a `vec_logs` table of 1024-float vectors with no foreign key.

The TypeScript migration of the command line (`cli/src/db/migrate.ts`) is
not part of this model; the command-line store is taken to share that
schema.

Choices where the model follows the code as written:

- `deleteStream` and `deleteProject` return `true` and rely on the cascade;
- `main` exits before its `finally` after an error, so the store is closed
  only after a command that completes;
- the OTLP endpoint counts only records with content;
- `/api/ingest` counts every entry it was sent;
- deleting a stream or a project cascades to the logs but leaves their vectors in `vec_logs`, which has no foreign key, so the next log may take a rowid an orphan vector still holds and then fail to store (see Findings);
- `/api/logs` pages as written, a negative limit included (see Findings);
- each `addLog` of a loop commits on its own, so when a loop stops, the entries before the one it stopped at stay stored.
- the server store's driver, better-sqlite3, binds every number as a REAL and spreads an array argument over the statement's parameters, so a content or stream id of `["x"]` binds as `x`; an error it throws reaches a reply as `String(e)`, led by its class (`TypeError`, `RangeError` or `SqliteError`);
- a property read from `null` or `undefined` throws V8's `TypeError: Cannot read properties of null (reading '…')`, the text the 500 replies carry.

## Model

| member | source | states |
|---|---|---|
| Tables.Filter | packages/core/src/services/db.ts:34 | the rows a `WHERE` keeps are exactly those of the table that satisfy it |
| Tables.InsertDesc | packages/core/src/services/db.ts:32 | inserting into a descending order keeps it descending and adds exactly that row |
| Tables.SortDesc | packages/core/src/services/db.ts:32 | `ORDER BY … DESC` is a permutation of the rows, sorted by descending key |
| Tables.WindowStart | packages/core/src/services/db.ts:146-150 | the row where `OFFSET` starts is never past the end |
| Tables.Window | packages/core/src/services/db.ts:146-150 | `LIMIT`/`OFFSET` as SQLite reads them: a negative offset counts as 0, a negative limit means no limit, and the result is the contiguous run of rows from the offset |
| Tables.WindowOfSorted | packages/core/src/services/db.ts:146-150 | a window of sorted rows is sorted, holds only those rows, and is all of them when there is no offset and room for all |
| Tables.RecentRows | packages/core/src/services/db.ts:146-153 | exactly the window the query returns: after skipping `offset` rows of the stream, newest first, the next `limit` of them (all the rest for a negative limit), each the row at that place in the stream |
| Tables.NewestFirst | packages/core/src/services/db.ts:146-149 | `WHERE stream_id = ? ORDER BY timestamp DESC`: a permutation of the stream's rows, newest first |
| Tables.WindowOfNewest | packages/core/src/services/db.ts:146-153 | a window of the stream's rows newest first holds only that stream's rows, in order, and all of them with no offset and room |
| Tables.NormaliseMetadata | packages/core/src/services/db.ts:155-164 | a query returns a stored object or array that has a key, and `{}` for anything else |
| Tables.Views | packages/core/src/services/db.ts:154-166 | each row is presented with its stream id, content, time and normalised metadata, in order |
| Tables.ViewsOfRows | packages/core/src/services/db.ts:146-167 | the presented rows stay newest first and each one comes from a stored log of that stream |
| Tables.RecentLogs | packages/core/src/services/db.ts:146-167 | `getRecentLogs`: as many logs as the window holds, each the view of the stream's row at that place, newest first, after the offset |
| Tables.StreamsOf | packages/core/src/services/db.ts:34 | the streams selected for a project are exactly the streams with that `project_id` |
| Tables.RawStreams | packages/core/src/services/db.ts:34-36 | the streams of a listing keep their config as JSON text, in table order |
| Tables.ProjectsOf | packages/core/src/services/db.ts:30-41 | the projects of a listing, in listing order |
| Tables.ListProjects | packages/core/src/services/db.ts:30-41 | `listProjects`: a permutation of the projects, newest first, each with exactly its own streams |
| Tables.ListedProjects | packages/core/src/services/db.ts:30-41 | a project is listed if and only if its row is in the table |
| Tables.PermutationSameElements | packages/core/src/services/db.ts:32 | a reordering keeps the same rows and their number |
| Tables.ParsedStreams | packages/core/src/services/db.ts:68-74 | each stream row is returned with its config parsed, in order |
| Tables.ListStreamsExactly | packages/core/src/services/db.ts:68-74 | `listStreams` returns every stream of the project and no other, once per row, newest first, with parsed config |
| Tables.FindProject | packages/core/src/services/db.ts:21-23 | a project is found if and only if a row has that id, and the row found has it |
| Tables.FindStream | packages/core/src/services/db.ts:55-61 | a stream is found if and only if a row has that id, and the row found has it |
| Tables.UniqueStream | packages/core/src/services/db.ts:43-53 | a stream inserted under a fresh id is the one a lookup by that id finds |
| Tables.UniqueProject | packages/core/src/services/db.ts:15-19 | a project inserted under a fresh id is the one a lookup by that id finds |
| Tables.NextRowid | packages/core/src/services/db.ts:91-99 | the rowid SQLite gives a new log is at least 1 and above every rowid in the table |
| Tables.NextRowidAppend | packages/core/src/services/db.ts:91-95 | a log given the next rowid moves the next rowid on by one |
| Tables.WithoutOrphanVectors | packages/core/src/services/db.ts:63-66 | corrected delete: removing the vectors of deleted logs leaves every other table unchanged and every vector owned by a log |
| Tables.ProjectDeletedKeepsKeys | packages/core/dist/db/migrate.js:26-47 | the cascade of a project delete leaves no stream or log whose foreign key dangles |
| Tables.DeletedProjectUnlisted | packages/core/src/services/db.ts:25-41 | a deleted project is no longer listed |
| Tables.StreamDeletedKeepsKeys | packages/core/dist/db/migrate.js:38-47 | the cascade of a stream delete leaves no log whose foreign key dangles |
| Tables.NextRowidFree | packages/core/src/services/db.ts:99-107 | while every vector is owned by a log, the next log's rowid is free in `vec_logs` |
| Tables.OrphanVectorTakesNextRowid | packages/core/dist/db/migrate.js:38-58 | as the schema stands, a stream delete can leave a vector whose rowid the next log takes |
| Tables.BindText | packages/core/src/services/db.ts:91-93 | a `TEXT NOT NULL` column takes a value bound to its parameter: a string as it is and a number as the text of what the store's driver binds it as, its decimal text for the command-line store's INTEGER, that text and `.0` for the server store's REAL; NULL fails the named column's constraint (`SqliteError: NOT NULL constraint failed: <column>` on the server store); a boolean, array or object cannot be bound to one parameter (`TypeError: SQLite3 can only bind numbers, strings, bigints, buffers, and null` on the server store) |
| Tables.BindNullable | cli/src/services/db.ts:42-46 | a nullable text column takes a string or a number's text (decimal, with `.0` when bound as a REAL), stores `null`, `undefined` and `NaN` as NULL, and refuses a boolean, array or object with the driver's `TypeError` |
| Tables.SpreadFrom | packages/core/src/services/db.ts:91-93 | better-sqlite3 binding an array argument's elements one parameter each gets through exactly when every element is bindable and finds a parameter |
| Tables.SpreadFromUnbindable | packages/core/src/services/db.ts:91-93 | the binding stops with the `TypeError` exactly when an element it cannot bind still finds a parameter and every element before it is bindable; otherwise a stop is `RangeError: Too many parameter values were provided` |
| Tables.SpreadArgument | packages/core/src/services/db.ts:146-152 | what better-sqlite3 binds for one argument: a scalar as it is; an array spread over the parameters, so a one-element array of a scalar binds as that scalar, `[]` is `RangeError: Too few parameter values were provided`, two or more bindable elements `RangeError: Too many parameter values were provided`, and the `TypeError` exactly when an unbindable element comes within the parameters after only bindable ones; a plain object binds no positional parameter (too few); a boolean is the `TypeError` |
| Tables.SpreadArrayFails | packages/core/src/services/db.ts:146-152 | an array of two or more bindable elements is `RangeError: Too many parameter values were provided`; an array is the `TypeError` exactly when an unbindable element comes within the parameters after only bindable ones |
| Tables.BindArgument | packages/core/src/services/db.ts:91-93 | the server store's `TEXT NOT NULL` argument binds exactly when it is a string or number or a one-element array of one, as `BindText` of it or of its element; the command-line store binds the value as `BindText` does |
| Tables.BindInteger | cli/src/services/db.ts:138-144 | `LIMIT ?` takes a number as it is and text that spells an integer as that integer; NULL and other text are a datatype mismatch |
| Tables.BindIntegerOfText | cli/src/services/db.ts:138-144 | an integer's decimal text bound to `LIMIT` is that integer |
| Tables.IntegerTextOfInt | cli/src/services/db.ts:138-144 | an integer's decimal text reads back, by numeric affinity, as that integer |
| Tables.Searched | packages/core/src/services/db.ts:119-124 | `searchLogs` fails if and only if the embedding fails, and returns nothing without an embedding |
| Tables.Database.constructor | packages/core/dist/db/migrate.js:9-58 | a new store is empty and consistent |
| Tables.Database.RandomUuid | packages/core/src/services/db.ts:16 | a fresh id is used by no project, stream or log |
| Tables.Database.Now | packages/core/dist/db/migrate.js:22 | `CURRENT_TIMESTAMP` is the clock's next reading |
| Tables.Database.InsertConfig | packages/core/dist/db/migrate.js:11-16 | inserting into `system_config` fails on an existing key and otherwise adds exactly that key |
| Tables.Database.InsertProject | packages/core/src/services/db.ts:15-19 | a project is appended with its name and the current time exactly when its id is new |
| Tables.Database.DeleteProject | packages/core/src/services/db.ts:25-28 | the project, its streams and their logs go as the schema cascades, the vectors of those logs stay, and the foreign keys still hold |
| Tables.Database.InsertStream | packages/core/src/services/db.ts:43-53 | a stream is appended with its config as stored JSON exactly when its id is new and a given project id names a project; a NULL project id is stored as it is |
| Tables.Database.DeleteStream | packages/core/src/services/db.ts:63-66 | the stream and its logs go as the schema cascades, their vectors stay, and the foreign keys still hold |
| Tables.Database.InsertLog | packages/core/src/services/db.ts:91-95 | a log is appended with the next rowid and the current time exactly when its id is new and its stream exists; else `UNIQUE constraint failed: logs.id` or `FOREIGN KEY constraint failed` |
| Tables.Database.InsertVector | packages/core/src/services/db.ts:99-107 | a vector is added exactly when it has 1024 components and its rowid is free; else the dimension mismatch or the `vec_logs` primary key error |
| Tables.Database.Restore | cli/src/services/db.ts:84-106 | `ROLLBACK` returns every table to what `BEGIN` saw |
| CoreDb.DbService.constructor | packages/core/src/services/db.ts:7-14 | the service holds the store, the auth service and the embedding function it is given |
| CoreDb.DbService.CreateProject | packages/core/src/services/db.ts:15-23 | exactly one new project, with a fresh id and that name, which `getProject` finds |
| CoreDb.DbService.DeleteProject | packages/core/src/services/db.ts:25-28 | returns `true`; the store is the cascade's result, vectors kept, and `getProject` finds nothing under that id |
| CoreDb.DbService.CreateStream | packages/core/src/services/db.ts:43-53 | fails without a project; otherwise exactly one new stream row, and its token signed with the secret `initialize` yields, or that error |
| CoreDb.DbService.GetStream | packages/core/src/services/db.ts:55-61 | a stream is returned if and only if a row has that id; it is that row, with its config parsed |
| CoreDb.DbService.DeleteStream | packages/core/src/services/db.ts:63-66 | returns `true`; the store is the cascade's result, vectors kept, and `getStream` finds nothing under that id |
| CoreDb.DbService.AddLog | packages/core/src/services/db.ts:76-117 | stored if and only if the stream exists, the content binds after better-sqlite3's spreading (`BindArgument`, so `["x"]` is stored as `x`) and, for a 1024-number embedding, no vector left by a deleted log holds the next rowid; the row has that rowid, the content and stored metadata (default `{}`); a failure changes nothing and its text is the binding error, else `SqliteError: FOREIGN KEY constraint failed` for a missing stream, else the `SqliteError` of the taken `vec_logs` rowid |
| CoreDb.DbService.Insert | packages/core/src/services/db.ts:88-110 | the inserts of `addLog`: the spread content's row, then the vector only for exactly 1024 dimensions, which fails when the rowid already holds a vector; the same error texts as `AddLog` |
| CoreDb.DbService.Index | packages/core/src/services/db.ts:99-107 | an embedding of another length is skipped and the log kept; a 1024-number one fails exactly when its rowid is taken, with the `vec_logs` primary key error |
| CliDb.DbService.constructor | cli/src/services/db.ts:5-11 | the service holds the store and the embedding function it is given |
| CliDb.DbService.CreateProject | cli/src/services/db.ts:12-20 | exactly one new project with that name, which `getProject` reads back |
| CliDb.DbService.DeleteProject | cli/src/services/db.ts:22-25 | returns `true`; the store is the cascade's result, vectors kept, and the project is no longer listed |
| CliDb.DbService.CreateStream | cli/src/services/db.ts:42-56 | succeeds exactly when a given project id names a project (a missing one is stored as NULL); the new stream is read back with its config, equal to the given one when JSON represents it exactly |
| CliDb.DbService.GetStream | cli/src/services/db.ts:50-56 | a stream is returned if and only if a row has that id, with its config parsed |
| CliDb.DbService.DeleteStream | cli/src/services/db.ts:58-61 | returns `true`; the store is the cascade's result, vectors kept, and `getStream` finds nothing |
| CliDb.DbService.AddLog | cli/src/services/db.ts:71-109 | succeeds exactly when the stream exists, the content binds and a present, non-empty embedding has 1024 numbers and a free rowid; on any failure every table is as before |
| CliDb.DbService.Statements | cli/src/services/db.ts:84-103 | the statements after `BEGIN`: the row, then the vector of a present, non-empty embedding, which fails on the wrong length or a taken rowid |
| CliDb.DbService.Index | cli/src/services/db.ts:95-100 | a present, non-empty embedding fails the transaction exactly when it is not 1024 long or its rowid is taken |
| Auth.Initialized | packages/core/src/services/auth.ts:12-27 | the cached secret wins, then a stored one; only when the key is absent is the random secret stored; the secret is never empty |
| Auth.InitializeOnce | packages/core/src/services/auth.ts:12-27 | once `initialize` has succeeded, calling it again changes nothing |
| Auth.InitializeReusesStoredSecret | packages/core/src/services/auth.ts:15-24 | a stored secret is reused without a write; a missing one adds exactly one row |
| Auth.Verified | packages/core/src/services/auth.ts:56-68 | a token verifies to a stream id if and only if the library accepts it and its `sub` is truthy |
| Auth.StreamTokenRoundTrip | packages/core/src/services/auth.ts:48-68 | a stream token verifies to its own stream id |
| Auth.McpTokenVerifies | packages/core/src/services/auth.ts:29-46 | the MCP token verifies, as the subject "system:mcp" |
| Auth.AuthService.constructor | packages/core/src/services/auth.ts:9-10 | a new service has no cached secret |
| Auth.AuthService.Initialize | packages/core/src/services/auth.ts:12-27 | the secret cached and the table written are those `Initialized` gives |
| Auth.AuthService.GetOrCreateMcpToken | packages/core/src/services/auth.ts:29-46 | a stored MCP token is returned as it is; else a new one is signed, stored and returned |
| Auth.AuthService.CreateStreamToken | packages/core/src/services/auth.ts:48-54 | the stream's claims signed with the secret, and no other write |
| Auth.AuthService.VerifyToken | packages/core/src/services/auth.ts:56-68 | `{ streamId }` for an accepted token with a truthy `sub`, `null` otherwise, a library error included |
| Ingest.Normalised | packages/core/src/api/server.ts:129-140 | one entry: a string is its own content, an object gives its `content` or else its JSON text, metadata defaults to `{}`, and `null` throws `TypeError: Cannot read properties of null (reading 'content')` |
| Ingest.Normalise | packages/core/src/api/server.ts:129-143 | the loop completes if and only if no entry is `null`, and keeps only entries with content |
| Ingest.NormalisePrefix | packages/core/src/api/server.ts:129-143 | the entries stored before a failure are a prefix of what the whole loop stores |
| Ingest.NormaliseStrings | packages/core/src/api/server.ts:129-143 | a list of non-empty strings is stored line by line, each with metadata `{}` |
| Ingest.AppendedOne | packages/core/src/api/server.ts:141 | appending one matching row extends the stored prefix by that entry |
| Ingest.AppendedBoth | packages/core/src/api/server.ts:129-143 | two stretches of appended rows compose |
| Ingest.ProgressedOne | packages/core/src/services/db.ts:88-110 | one more `addLog` takes the next rowid, and its vector, if any, that rowid |
| Ingest.ProgressedBoth | packages/core/src/api/server.ts:129-143 | two runs of `addLog`, the second from where the first ended, make one run |
| Ingest.ProgressedAhead | packages/core/src/services/db.ts:88-110 | at or above the next rowid the vectors are those the run started with |
| Ingest.AllStoredAccepted | packages/core/src/services/db.ts:76-117 | while no vector sits at or above the next rowid, a run stores every entry exactly when the store accepts each one |
| Ingest.AllStoredSnoc | packages/core/src/api/server.ts:129-143 | one more stored entry extends a run that stored all before it |
| Ingest.AllStoredPrefix | packages/core/src/api/server.ts:129-143 | a run that stores all its entries stores all of any prefix |
| Ingest.AllStoredBoth | packages/core/src/api/server.ts:63-96 | a run stores all of two stretches exactly when it stores the first and, from where it ended, the second |
| Ingest.RefusedPrefix | packages/core/src/api/server.ts:63-96 | a run that stops within its first entries stops within any longer run that opens with them |
| Ingest.StoredAtAfter | packages/core/src/api/server.ts:63-96 | after a stretch is stored, an entry takes a place of the rest of the run exactly when it takes the place that far into the whole run |
| Ingest.RefusedAfter | packages/core/src/api/server.ts:63-96 | a stop after a completed stretch is a stop of the whole run, with the stretch stored |
| Ingest.HaltedNotAllStored | packages/core/src/api/server.ts:129-143 | a loop that stopped at an entry did not store the whole request, and it stopped somewhere |
| ApiServer.Status | packages/core/src/api/server.ts:45 | the OTLP error body carries its code and message |
| ApiServer.BearerToken | packages/core/src/api/server.ts:48 | the token read from the header holds no space |
| ApiServer.BearerTokenOf | packages/core/src/api/server.ts:44-48 | "Bearer " followed by a token without spaces reads back that token |
| ApiServer.Authenticate | packages/core/src/api/server.ts:43-51 | no credential without a "Bearer " header; a subject only when the token verifies to a truthy stream id |
| ApiServer.StreamTokenAuthenticates | packages/core/src/api/server.ts:43-51 | a stream token sent as "Bearer <token>" authenticates as its stream |
| ApiServer.IntAttribute | packages/core/src/api/server.ts:30 | an `intValue` written as decimal text is kept as the number it spells |
| ApiServer.Attribute | packages/core/src/api/server.ts:25-36 | an entry with truthy key and value sets that key and leaves every other; other entries are skipped; `null` throws |
| ApiServer.Attributes | packages/core/src/api/server.ts:22-39 | anything but an array, and the empty array, gives `{}` |
| ApiServer.AttributesFromSnoc | packages/core/src/api/server.ts:24-37 | one more attribute is one more turn of the loop |
| ApiServer.LastAttributeWins | packages/core/src/api/server.ts:24-37 | of two entries with the same key the later one wins |
| ApiServer.ParseOtlpAttributes | packages/core/src/api/server.ts:22-39 | the loop computes exactly the attribute object |
| ApiServer.RecordContent | packages/core/src/api/server.ts:71-75 | the content is the string body, else the JSON text of the key-value body, else a string body, else "" |
| ApiServer.MetadataPrecedence | packages/core/src/api/server.ts:80-86 | in the metadata, `timestamp`, `scope` and `severity` override the log's attributes, which override the resource's |
| ApiServer.Record | packages/core/src/api/server.ts:68-86 | a record fails if and only if it is nullish or has a `null` attribute entry; otherwise its content and metadata are as above |
| ApiServer.BuildRecord | packages/core/src/api/server.ts:68-86 | the loop body builds exactly that record |
| ApiServer.RecordsFromStep | packages/core/src/api/server.ts:67-93 | one turn of the innermost loop keeps the record exactly when it has content |
| ApiServer.ScopeLogsFromStep | packages/core/src/api/server.ts:65-94 | one turn of the middle loop |
| ApiServer.ResourceLogsFromStep | packages/core/src/api/server.ts:63-96 | one turn of the outer loop |
| ApiServer.RecordsKeepContent | packages/core/src/api/server.ts:67-93 | the innermost loop extends what was kept and keeps only records with content |
| ApiServer.ScopeLogsKeepContent | packages/core/src/api/server.ts:65-94 | the middle loop extends what was kept and keeps only records with content |
| ApiServer.ResourceLogsKeepContent | packages/core/src/api/server.ts:63-96 | the outer loop extends what was kept and keeps only records with content |
| ApiServer.OtlpRecordsHaveContent | packages/core/src/api/server.ts:88-91 | every record `/v1/logs` stores and counts has non-empty content |
| ApiServer.OtlpPlan | packages/core/src/api/server.ts:43-59 | 401 with code 16 if and only if authentication fails, 400 with code 3 if and only if `resourceLogs` is not an array, otherwise the records are stored under the token's stream |
| ApiServer.IngestPlan | packages/core/src/api/server.ts:107-127 | 401 if and only if authentication fails, 403 if and only if the body names another stream, 400 if and only if there are no logs; one log is wrapped in a list |
| ApiServer.Offset | packages/core/src/api/server.ts:232 | the offset is `(page - 1) * limit`, a number exactly when page and limit are, and not negative for a valid page and limit |
| ApiServer.TextOne | packages/core/src/api/server.ts:223 | the default page text "1" parses to 1 |
| ApiServer.TextHundred | packages/core/src/api/server.ts:226 | the default page size text "100" parses to 100 |
| ApiServer.Page | packages/core/src/api/server.ts:223-224 | page 1 when absent; a parsed page below 1 becomes 1; `NaN` exactly when it does not parse |
| ApiServer.RequestedLimit | packages/core/src/api/server.ts:226-227 | `limit` when given, else `pageSize` when given, else 100, each as `parseInt` reads it |
| ApiServer.PagingAsWritten | packages/core/src/api/server.ts:223-232 | as written: the limit is the requested one capped at 1000 from above only, and the offset is `(page - 1) * limit` |
| ApiServer.NegativeLimitUncapped | packages/core/src/api/server.ts:226-241 | as written, `limit=-1` gives the limit -1 and offset 0, and the query returns more than 1000 rows when the stream has them |
| ApiServer.Paging | packages/core/src/api/server.ts:223-232 | corrected paging: the limit is kept within 0..1000 and the offset is not negative; otherwise it agrees with the code as written |
| ApiServer.CorrectedPageCapped | packages/core/src/api/server.ts:229-240 | with the corrected limit, a page never holds more than 1000 logs |
| ApiServer.SpreadContentAsElement | packages/core/src/services/db.ts:91-93 | an entry whose content is a one-element array `[x]` is accepted exactly when one with content `x` is, and stored as the same row |
| ApiServer.CorePolicy | packages/core/src/services/db.ts:76-117 | the server store accepts an entry whose stream exists and whose content binds after better-sqlite3's spreading (a one-element array as its element), indexes a 1024-number embedding, and stores a numeric content as a REAL's text |
| ApiServer.CoreStoredAt | packages/core/src/services/db.ts:76-117 | the next entry of a run is stored exactly when `addLog` takes it now: accepted, and the next rowid free for its vector |
| ApiServer.StoppedLater | packages/core/src/api/server.ts:63-96 | a stop inside an inner loop is a stop of the enclosing loops |
| ApiServer.StoppedAtRecord | packages/core/src/api/server.ts:67-93 | a refused record stops the loops there, whatever follows it |
| ApiServer.Server.constructor | packages/core/src/api/server.ts:7-16 | the server uses the store and auth service it is given |
| ApiServer.Server.Authorize | packages/core/src/api/server.ts:43-51 | the header checks give exactly `Authenticate`'s answer under the initialised secret, and no table changes |
| ApiServer.CoreAddedOne | packages/core/src/services/db.ts:76-117 | what `addLog` did for the next entry: it took it exactly when the run's policy stores it there, and then the run has stored one more entry |
| ApiServer.Server.StoreEntry | packages/core/src/api/server.ts:141 | an entry is stored, as the next row, exactly when the server store's policy lets it take its place in the run; otherwise nothing changes |
| ApiServer.Server.StoreNext | packages/core/src/api/server.ts:129-143 | one pass of the loop: it goes on exactly when the run extends over the entry, with that entry stored if it has content; otherwise the loop stops at it |
| ApiServer.Server.StoreEntries | packages/core/src/api/server.ts:129-143 | completes if and only if no entry is `null` and every kept entry is stored in turn; then one row per kept entry, in order; when it stops, the rows stored before the stop stay and the entry it stopped at was `null` or refused |
| ApiServer.Server.HandleIngest | packages/core/src/api/server.ts:105-150 | a check's reply stores nothing; otherwise 200 with the count of all entries sent exactly when every kept entry is stored (while no vector is ahead, exactly when each is accepted), each row holding its entry's content as better-sqlite3 binds it (`["x"]` as `x`), else 500 with the entries before the failing one stored |
| ApiServer.Server.StoreRecord | packages/core/src/api/server.ts:68-91 | one record: built, and stored and counted exactly when it has content and the store takes it; a refusal stops the loops there |
| ApiServer.Server.StoreRecords | packages/core/src/api/server.ts:67-93 | the innermost loop stores the records `RecordsFrom` keeps and counts them, or stops at a malformed or refused record |
| ApiServer.Server.StoreScopeLogs | packages/core/src/api/server.ts:65-94 | the middle loop stores what `ScopeLogsFrom` keeps and counts it, or stops at a malformed or refused record |
| ApiServer.Server.StoreScopeLog | packages/core/src/api/server.ts:65-94 | one scope: its records stored and counted, or the stop they end in |
| ApiServer.Server.StoreResourceLog | packages/core/src/api/server.ts:63-96 | one resource: its scopes stored and counted, or the stop they end in |
| ApiServer.Server.StoreResourceLogs | packages/core/src/api/server.ts:63-96 | completes if and only if the records parse and the store takes each one with content, in order; then one row per such record, counted; a refusal leaves the records before it stored |
| ApiServer.Server.IngestOtlp | packages/core/src/api/server.ts:61-102 | 200 with `logsIngested` equal to the records stored exactly when every record with content is stored (while no vector is ahead, exactly when each is accepted); else 500 with code 13 |
| ApiServer.Server.HandleOtlp | packages/core/src/api/server.ts:41-103 | `/v1/logs`: the checks' replies store nothing; else 200 exactly when every record with content is stored under the token's stream and counted, each `body.stringValue` as better-sqlite3 binds it (`["x"]` as `x`), 500 with code 13 otherwise |
| ApiServer.Server.QueryLogs | packages/core/src/services/db.ts:146-152 | `getRecentLogs` for the stream id better-sqlite3 spreads: a one-element array `["s"]` asks for `s`, an element bound as NULL matches no row, a spread failure or a `NaN` bound throws; no more logs than a limit that is not negative |
| ApiServer.Server.HandleLogs | packages/core/src/api/server.ts:217-243 | 400 without a stream id; search with `q`; otherwise exactly `getRecentLogs` with the paging as written, for the stream id better-sqlite3 spreads (a one-element array `["s"]` asks for `s`, an element bound as NULL matches no row, other arrays and objects throw a `RangeError`, or the `TypeError` for an element it cannot bind), at most 1000 logs for a limit that is not negative; a query that throws leaves the request without a response |
| McpServer.EventLines | cli/src/mcp/server.ts:36 | an SSE event of one field and one data line splits into those lines and a blank one (WHATWG HTML, section 9.2 "Server-sent events") |
| McpServer.MessageEventLines | cli/src/mcp/server.ts:34-39 | each message goes out as exactly one `data:` line of its JSON text |
| McpServer.EndpointEventLines | cli/src/mcp/server.ts:298-301 | the first event names the session's message endpoint on one line |
| McpServer.SseTransport.constructor | cli/src/mcp/server.ts:17-32 | a new transport is open and has sent only its first frame |
| McpServer.SseTransport.Send | cli/src/mcp/server.ts:34-39 | one message event while open, nothing once closed |
| McpServer.SseTransport.Close | cli/src/mcp/server.ts:41-50 | the controller is closed once, and `onclose` is told on every call |
| McpServer.SseTransport.HandlePostMessage | cli/src/mcp/server.ts:52-54 | a posted message is delivered to the protocol handler, in order |
| McpServer.CloseTwice | cli/src/mcp/server.ts:41-50 | closing twice closes the controller once, notifies twice, and a send in between goes nowhere |
| McpServer.ToolOf | cli/src/mcp/server.ts:158-206 | a tool is dispatched if and only if it is one of the five announced |
| McpServer.QueryDefaults | cli/src/mcp/server.ts:190-204 | with no limit and no mode, `query_logs` returns the ten most recent logs |
| McpServer.QueryLimitOfText | cli/src/mcp/server.ts:190-194 | a `limit` given as an integer's decimal text binds to `LIMIT` as that integer |
| McpServer.Resources | cli/src/mcp/server.ts:64-74 | one resource per project, with its URI, name and description |
| McpServer.ResourceIdOfPath | cli/src/mcp/server.ts:79 | the path of a project URI reads back the project's id |
| McpServer.RouteOf | cli/src/mcp/server.ts:272-375 | `OPTIONS` is always the preflight reply |
| McpServer.McpHttp.constructor | cli/src/mcp/server.ts:220 | no sessions at start |
| McpServer.McpHttp.OpenSession | cli/src/mcp/server.ts:290-321 | `GET /mcp` registers a fresh session whose first frame is its endpoint event |
| McpServer.McpHttp.CancelSession | cli/src/mcp/server.ts:306-310 | cancelling closes the session's transport and forgets the session |
| McpServer.McpHttp.PostMessage | cli/src/mcp/server.ts:323-341 | 404 for an unknown session, 500 for a body that is not JSON, else 202 and the message is delivered |
| McpServer.McpHttp.Handle | cli/src/mcp/server.ts:272-375 | the routes: preflight, sessions, messages, projects, streams, and 404 for the rest; only `/mcp` adds a session |
| McpServer.ListResources | cli/src/mcp/server.ts:64-74 | one resource per listed project |
| McpServer.ReadResource | cli/src/mcp/server.ts:77-95 | a URI that does not parse is an internal error (Deno's `Invalid URL: '<uri>'`); an unknown scheme `InvalidRequest`; a project URI the project's streams |
| McpServer.ListedResourceReads | cli/src/mcp/server.ts:64-95 | reading a listed resource gives the streams of its project |
| McpServer.CallTool | cli/src/mcp/server.ts:158-208 | each tool's effect and answer: the deletes as the schema cascades them, `query_logs` with its limit bound as SQLite binds `LIMIT`, its `InvalidParams` checks, and `MethodNotFound` for any other name |
| McpServer.CliAddedOne | cli/src/services/db.ts:71-109 | what the command-line `addLog` did for the next entry: it took it exactly when the run's policy stores it there, and then the run has stored one more entry |
| McpServer.StoreEntry | cli/src/mcp/server.ts:407 | one entry stored, as the next row, exactly when the command-line store's policy lets it take its place; else no row |
| McpServer.CliPolicy | cli/src/services/db.ts:71-109 | the command-line store accepts an entry whose stream exists, whose content binds and whose present embedding has 1024 numbers, indexes a present, non-empty one, and stores a numeric content as an INTEGER's text |
| McpServer.CliStoredAt | cli/src/services/db.ts:71-109 | the next entry of a run is stored exactly when the command-line `addLog` takes it now: accepted, and the next rowid free for a present, non-empty embedding |
| McpServer.StoreNext | cli/src/mcp/server.ts:396-409 | one pass of the loop: it goes on exactly when the run extends over the entry, with that entry stored if it has content; otherwise the loop stops at it |
| McpServer.StoreEntries | cli/src/mcp/server.ts:396-409 | completes if and only if no entry is `null` and every kept entry is stored in turn; then one row per kept entry, in order; when it stops, the rows before the stop stay |
| McpServer.HandleIngest | cli/src/mcp/server.ts:380-418 | 405 for anything but POST, 400 without `streamId` or `logs`, 200 with the count of all entries sent exactly when every kept entry is stored, else 500 with the entries before the failure stored |
| McpServer.Streams | cli/src/mcp/server.ts:352-366 | the project's streams from the query of a GET or the body of a POST; 404 without a project id; 500 for a POST without a body or with a project id that does not bind |
| McpServer.CreateStream | cli/src/mcp/server.ts:368-372 | a stream with config `{}` exactly when the fields bind and a given project id names a project (none is stored as NULL), read back by `getStream`; otherwise 500 and no new row |
| McpServer.Serve | cli/src/mcp/server.ts:283-374 | the store-only routes: preflight, 404, projects, streams, ingest and create, with each one's reply and its effect on the store |
| CliMain.PositionalText | cli/src/main.ts:63 | a positional word is its own text |
| CliMain.OptionText | cli/src/main.ts:75-82 | a non-empty option text is the option given |
| CliMain.StreamConfig | cli/src/main.ts:89-92 | the config is `{}`, with `container` only for a `docker` stream given one |
| CliMain.ProjectsCommand | cli/src/main.ts:57-71 | `projects add` always has a name |
| CliMain.StreamsCommand | cli/src/main.ts:72-100 | `streams list` has a project; `streams add` has a known type, a project and a name |
| CliMain.Plan | cli/src/main.ts:18-181 | usage exactly for `--help` or no command; `start` and `stdio` exactly for those words; every store command carries the arguments it checked |
| CliMain.StreamsAddPlanned | cli/src/main.ts:79-95 | `streams add` with a known type and both options creates exactly that stream |
| CliMain.NumericProjectName | cli/src/main.ts:62-65 | a numeric project name is its decimal text |
| CliMain.LineEntries | cli/src/main.ts:111-116 | only lines that are not blank are stored, each with the given metadata |
| CliMain.LineEntriesAppend | cli/src/main.ts:111-116 | reading two stretches stores the first's entries, then the second's |
| CliMain.LineEntriesKeep | cli/src/main.ts:111-116 | every line that is not blank is stored |
| CliMain.LineEntriesPrefix | cli/src/main.ts:111-116 | the entries of a prefix of the lines open those of all the lines |
| CliMain.LineEntriesSnoc | cli/src/main.ts:111-116 | one more line adds its entry unless it is blank |
| CliMain.LineTurn | cli/src/main.ts:111-116 | a line that is not blank, taken, extends the run by one line; refused, it ends the run over all the lines |
| CliMain.StoreLine | cli/src/main.ts:112-115 | one line: skipped if blank, else stored exactly when the store takes it at its place; a refusal ends the run there |
| CliMain.LineRefused | cli/src/main.ts:111-116 | a refused line ends the run over all the lines there, the lines before it stored |
| CliMain.StoreLines | cli/src/main.ts:111-116 | completes if and only if every line that is not blank is stored in turn, and then one row per such line, in order; else the lines before the refused one stay stored |
| CliMain.Preview | cli/src/main.ts:172 | the first fifty characters: a prefix, and the whole content when it is short |
| CliMain.LogTable | cli/src/main.ts:165-175 | the fifty newest logs of the stream (all when fewer), newest first, each its first fifty characters and its time |
| CliMain.Run | cli/src/main.ts:11-190 | the exit status is 1 exactly when the command fails; the store is closed only after a command that completes, never by `start` or `stdio` |
| CliMain.SucceedsWhenAccepted | cli/src/main.ts:101-164 | while no vector is ahead of the logs, `ingest` succeeds exactly when every line is accepted, and `attach` exactly when `docker` starts and every line is accepted |
| CliMain.Perform | cli/src/main.ts:41-181 | what each command changes in the store: a failed `streams add` nothing, a failed `ingest` or `attach` the lines before the refused one; the other commands nothing |
| CliMain.Attach | cli/src/main.ts:119-164 | exit 1 without storing when `docker` cannot be started; else exit 0 exactly when every line of the two streams that is not blank is stored with its source, and the lines before a refused one stay |
| Batching.ChosenToken | packages/terminal/main.ts:13 | the flag wins when it is not empty, else the environment; a chosen token is never empty |
| Batching.StripTrailingSlash | packages/terminal/main.ts:19 | one trailing slash is removed, and nothing else |
| Batching.StripOneSlash | packages/docker/main.ts:28 | only one slash goes |
| Batching.TerminalLaunch | packages/terminal/main.ts:13-19 | exit 1 exactly when there is no token; otherwise run with that token and URL |
| Batching.DockerLaunch | packages/docker/main.ts:16-28 | exit 1 exactly when the token or the container is missing |
| Batching.ExitCode | packages/docker/main.ts:95-98 | the child's code, and 0 for a `null` code |
| Batching.CompactTokenDots | packages/terminal/main.ts:40-41 | a token has three parts exactly when it has two dots (RFC 7515, section 7.1) |
| Batching.StreamIdOf | packages/terminal/main.ts:40-43 | a token that is not three parts yields no stream id |
| Batching.IngestPost | packages/terminal/main.ts:45-55 | each request goes to `/api/ingest` with a bearer header |
| Batching.PostReadBack | packages/terminal/main.ts:45-55 | the server reads back the token, the stream id and exactly the entries sent |
| Batching.Posts | packages/terminal/main.ts:32-63 | one request per flushed batch when the token yields a stream id, none otherwise |
| Batching.PostsSnoc | packages/terminal/main.ts:32-63 | one more flush adds its request at the end |
| Batching.SizedSnoc | packages/terminal/main.ts:71-75 | batches of one to ten entries stay so |
| Batching.ConcatSnoc | packages/terminal/main.ts:34-35 | flushing appends the batch to what was flushed |
| Batching.PostsCarryFlushed | packages/terminal/main.ts:32-63 | the requests carry every flushed entry, in order and once, or none for an unusable token |
| Batching.EntryOf | packages/docker/main.ts:77-80 | a terminal entry is the line; a docker entry has the line as content |
| Batching.TerminalBatchStored | packages/terminal/main.ts:70 | a terminal batch is stored line by line with metadata `{}` |
| Batching.Batcher.constructor | packages/terminal/main.ts:29-30 | an empty batch and no timer |
| Batching.Batcher.Flush | packages/terminal/main.ts:32-63 | nothing for an empty batch; otherwise the batch is taken, emptied and the timer cleared before its request is issued |
| Batching.Batcher.Accept | packages/terminal/main.ts:65-70 | a line that is not blank is echoed by the terminal ingestor and its entry appended to the batch, to what was accepted, in order |
| Batching.Batcher.OnLine | packages/terminal/main.ts:65-76 | a blank line changes nothing; any other line is accepted as the entry made of it; a tenth entry sends the batch; otherwise the entry waits and the timer is armed |
| Batching.Batcher.OnTimer | packages/terminal/main.ts:74 | the timer flushes the waiting batch |
| Batching.Batcher.OnClose | packages/terminal/main.ts:78-80 | on close, every accepted line has been flushed, and sent when the token allows |
| Batching.DockerIngestor.constructor | packages/docker/main.ts:31-93 | one batcher per stream of the child, each tagged with its source and container |
| Batching.DockerIngestor.OnLine | packages/docker/main.ts:74-87 | a line changes only its own stream's batcher |
| Batching.DockerIngestor.ExitAsWritten | packages/docker/main.ts:95-98 | as written, the process exits with the child's code and the waiting entries stay unsent |
| Batching.DockerIngestor.OnChildClose | packages/docker/main.ts:95-98 | corrected: both batches are flushed before the exit, so every accepted entry is flushed |
| Batching.SnapshotsOfOneSource | packages/docker/main.ts:92-93 | every entry a docker batcher flushes names that batcher's own source, so the two streams never share a batch |
| Batching.DockerEntryMetadata | packages/docker/main.ts:77-80 | a docker entry names its source and container |
| Batching.ExitLosesWaitingLine | packages/docker/main.ts:95-98 | a single line printed before the child exits is never sent |
| Batching.CloseSendsWaitingLine | packages/docker/main.ts:95-98 | with the flush before the exit, that line is flushed |
| McpClient.ApiUrl | packages/mcp/src/main.ts:9 | the environment's URL when it is not empty, else the default |
| McpClient.FetchApi | packages/mcp/src/main.ts:11-18 | the JSON of an ok response; "API Error <status>: <text>" for any other |
| McpClient.ErrorText | packages/mcp/src/main.ts:69 | a failed tool answers text starting "Error: " |
| McpClient.ResourceId | packages/mcp/src/main.ts:35 | the id is the last `/`-separated piece of the URI: it ends the URI, holds no `/`, and a `/` comes right before it unless it is the whole URI |
| McpClient.ResourceIdOfProject | packages/mcp/src/main.ts:33-35 | the id of `loghead://project/{id}` is `{id}` |
| McpClient.ReadProject | packages/mcp/src/main.ts:34-48 | the resource succeeds exactly when the streams of its id can be fetched |
| McpClient.ReadProjectAsksForItsStreams | packages/mcp/src/main.ts:33-37 | reading a project URI asks for that project's streams |
| McpClient.Spread | packages/mcp/src/main.ts:62 | `{ ...p }` copies an object's own members |
| McpClient.ListProjects | packages/mcp/src/main.ts:56-71 | `Error: …` exactly when the list cannot be fetched or is not an array: for `null`, V8's `TypeError: Cannot read properties of null (reading 'map')`, for another non-array `TypeError: projects.map is not a function`; otherwise one entry per project |
| McpClient.ListedProject | packages/mcp/src/main.ts:59-66 | each project keeps its place and fields and gains `streams` exactly when they could be fetched |
| McpClient.QueryPath | packages/mcp/src/main.ts:84-85 | the path is `/logs?streamId=<id>&limit=<limit, 20 by default>`, followed by `&q=` and the encoded query exactly when there is a non-empty query |
| McpClient.QueryPathLimit | packages/mcp/src/main.ts:84-85 | the text after `&limit=`, up to the next `&`, parses back to the limit asked for, twenty by default |
| McpClient.QueryPathDefaults | packages/mcp/src/main.ts:80-85 | without a query or limit, the twenty most recent logs |
| McpClient.QueryLogs | packages/mcp/src/main.ts:82-92 | the API's answer, or `Error: …` with its reason |
| BrowserContent.InjectsByDefault | packages/browser/content.js:2-5 | only an explicit `false` disables injection, and both stream and server must be set |
| BrowserContent.Forwarded | packages/browser/content.js:13-17 | a message is forwarded exactly when its data is truthy and of type `LOGHEAD_LOG` |
| BrowserContent.JoinedTexts | packages/browser/content.js:24 | `join` writes strings as they are, `null` and `undefined` as empty |
| BrowserContent.LogContent | packages/browser/content.js:24 | the content is `[level] ` followed by the joined arguments |
| BrowserContent.SendToServer | packages/browser/content.js:20-41 | a request is sent exactly when the payload is set and its `args` are a list, to `<server>/api/ingest` with the stored token and stream |
| BrowserContent.SentLogIngested | packages/browser/content.js:26-41 | the server stores the sent body as exactly one entry with the browser metadata |
| BrowserContent.OneObjectEntry | packages/core/src/api/server.ts:127-140 | a lone object with content and metadata is one entry |
| Json.Or | packages/core/src/api/server.ts:223 | the JavaScript `or` of two values is the first when it is truthy, else the second |
| Json.ReplaceGet | packages/core/src/api/server.ts:80-86 | assigning an existing key changes only that key |
| Json.SetGet | packages/core/src/api/server.ts:80-86 | after `o[k] = v`, `k` reads `v` and every other key is unchanged |
| Json.AssignGet | packages/core/src/api/server.ts:80-86 | in `{...a, ...b}` a key of `b` takes `b`'s value, any other keeps `a`'s |
| Json.Prop | packages/core/src/api/server.ts:68 | reading a property throws exactly on `null` and `undefined` |
| Json.Iterate | packages/core/src/api/server.ts:63-67 | only arrays and strings are iterable |
| Json.ParseIntOfIntToString | packages/core/src/api/server.ts:30 | an integer's decimal text parses back to itself |
| Json.SerializeSingleLine | cli/src/mcp/server.ts:36 | `JSON.stringify` without indent writes one line |
| Json.StoredPlain | packages/core/src/services/db.ts:46-58 | a value JSON represents exactly survives the trip through a JSON column |
| Json.StoredIsPlain | packages/core/src/services/db.ts:86-91 | what is read back from a JSON column is always plain |
| Json.StoredIdempotent | packages/core/src/services/db.ts:86-91 | storing a read-back value again changes nothing |
| Strings.TrimStart | packages/core/src/api/server.ts:30 | leading white space removed and nothing else |
| Strings.Split | packages/core/src/api/server.ts:48 | `split` yields at least one piece |
| Strings.SplitCount | packages/terminal/main.ts:40 | one more piece than separators |
| Strings.SplitJoin | packages/terminal/main.ts:40 | joining the pieces with the separator gives the text back |
| Strings.LastPiece | packages/mcp/src/main.ts:35 | `split(sep).pop()` holds no separator and ends the text |
| Strings.LastPieceIsLastSplit | packages/mcp/src/main.ts:35 | `LastPiece` is the last piece of the split |
| Strings.NatToStringValue | packages/core/src/api/server.ts:30 | reading back a decimal rendering gives the number |

## Left out

- The startup code of each program is not modelled: `startApiServer` awaiting `initialize`, `startMcpServerHttp`'s free-port loop and console banner, `startMcpServerStdio`, `migrate`, `ensureInfrastructure`, and the `start`, `stdio` and `init` commands beyond their exit status. They are I/O. The model requires the secret to be initialised before a request is handled.
- `migrate` itself is not modelled; its schema is what `Tables.Database` enforces.
- The core server's `/api/projects`, `/api/streams`, `/api/streams/:id/token` and `/api/streams/create` routes (packages/core/src/api/server.ts:152-215) are not modelled. Their store calls are modelled in `CoreDb`.
- The CORS headers and the Express and Deno request plumbing are not modelled. Replies are status, body and kind.
- The MCP SDK is left out: JSON-RPC framing, `ListTools`' schema texts and the stdio transport. `McpServer.CallTool` answers with the SDK's error codes as integers.
- The nearest-neighbour query of `searchLogs` and its distances are not modelled; `Tables.Searched` stops at the embedding. Floating point and the similarity computation are out of reach.
- Numbers are integers: `doubleValue`, fractional limits and floats in JSON are not modelled.
- `CliMain.Attach` stores the standard output's lines before the standard error's. The two readers run concurrently in the code, and their interleaving is not modelled.
- `McpServer.CallTool` binds a `limit` given as text by numeric affinity only for an optional sign and decimal digits with spaces around; other numeric text SQLite would accept (a fraction, an exponent, hexadecimal) is refused as a datatype mismatch.
- `Tables.BindText` writes a number bound as a REAL as its decimal text followed by `.0`. SQLite writes that form only below 10^15; larger REALs come out in exponent form (`1.0e+15`), which is not modelled.
- The command-line store's driver is opened in cli/src/db/client.ts, which is not part of this model. That driver is taken to bind a whole number as an INTEGER.
- `Tables.BindArgument`: for the command-line store's driver an argument is bound as it is, without spreading an array, and its errors are kept as bare messages without an error class name, because that driver is not part of this model.
- `Tables.SpreadArgument` does not model bigints and buffers, which JSON cannot carry, nor better-sqlite3's texts for an oversized value.
- `ApiServer.Server.HandleOtlp`: a token whose stream id is an array of other than one element, with a record whose content is an array, is refused on the stream id's own count; better-sqlite3 would count both spreads together over the insert's four parameters. The server only signs tokens whose stream id is a string.
- `Auth.AuthService.Initialize` reports a failed `system_config` insert with the bare SQLite message, without better-sqlite3's `SqliteError: ` prefix. That insert fails only for a key stored with an empty value.
- `Batching.StreamIdOf` states only that a token not of three parts yields nothing. Base64 and `JSON.parse` of the payload are the `decode` oracle.
- `ApiServer.Server.HandleLogs` states the search path only up to the embedding, as above.
- `Json.Serialize` writes an object's members in the order they were set. JavaScript writes integer-like keys first, in ascending order, so `{"b":1,"2":2}` is stored as `{"2":2,"b":1}` by the program and as `{"b":1,"2":2}` here; that key order is not modelled.
- `Json.Serialize` states only that the text is non-empty. The single-line property is `Json.SerializeSingleLine`. Indented output (`JSON.stringify(x, null, 2)`) is not modelled; results that go out that way are kept as values.
- `CliMain.Preview` cuts after fifty characters. `substring(0, 50)` counts UTF-16 code units, so a cut through a character outside the Basic Multilingual Plane differs; strings are sequences of characters here.
- `ApiServer.Server.StoreResourceLogs`: when a record is malformed (`OtlpRecords` fails), which records before it were stored is not stated.
- `ApiServer.Server.IngestOtlp`: after a malformed record, the 500 reply is stated but not which records were stored before it.
- `ApiServer.Server.HandleOtlp`: the same holds for a malformed record in the request.
- `Tables.SortDesc` keeps rows with equal keys in table order. SQLite leaves that order open.
- Timestamps are natural numbers from the `clock` oracle. SQLite's one-second text resolution and its string comparison are not modelled.
- The terminal ingestor echoes each accepted line; it is recorded in `Batching.Batcher`'s `echoed`. Console output is otherwise left out.
- `fetch` results are not awaited in the ingestors: requests are recorded in order of issue, and their replies, which only ever print, are left out.
- The browser extension's background worker, popup and injected page script, the web UI, the sample applications, the build scripts and the `dist` copies are not part of this model.

## Findings

| source | as written | input that shows it | evidently intended | confidence | as-written member | corrected member |
|---|---|---|---|---|---|---|
| packages/core/src/services/db.ts:63-66 | deleting a stream or project cascades to `logs`, but `vec_logs` has no foreign key, so the deleted logs' vectors stay; SQLite then gives the next log the freed largest rowid | a stream whose log holds rowid 1 and a vector is deleted; the next `addLog` gets rowid 1, and inserting its vector hits the orphan | the vectors of deleted logs are removed with them, so every new rowid is free in `vec_logs` | not executed | Tables.OrphanVectorTakesNextRowid | Tables.NextRowidFree |
| packages/core/src/api/server.ts:227-232 | only `limit > 1000` is capped; SQLite reads a negative `LIMIT` as no limit | `GET /api/logs?streamId=s&limit=-1` on a stream of 1001 logs returns all 1001 | never more than 1000 rows | not executed | ApiServer.NegativeLimitUncapped | ApiServer.Paging |
| packages/docker/main.ts:95-98 | when the child exits, `process.exit` runs at once; entries waiting for the one-second timer are never sent | a container that prints one line and exits within a second | the waiting batches are flushed before the exit | not executed | Batching.ExitLosesWaitingLine | Batching.CloseSendsWaitingLine |
