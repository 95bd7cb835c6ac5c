/** `DbService` of the server package (packages/core/src/services/db.ts):
    projects, streams and logs over the shared database, stream tokens from
    an `AuthService`, and a vector row beside each log whose embedding has
    the 1024 dimensions the index expects. */
module CoreDb {
  import opened Wrappers
  import opened Json
  import opened Tables
  import opened Auth

  const DefaultLimit := 50
  const DefaultOffset := 0

  /** A created stream and its token (`{ ...stream, token }`). */
  datatype Created = Created(stream: Stream, token: string)

  class DbService {
    const db: Database
    const auth: AuthService
    /** `ollama.generateEmbedding`. */
    const embed: Value -> Embedding

    ghost predicate Valid()
      reads this, db
    {
      db.Valid() && auth.db == db
    }

    constructor (db: Database, auth: AuthService, embed: Value -> Embedding)
      requires auth.db == db
      ensures this.db == db && this.auth == auth && this.embed == embed
    {
      this.db := db;
      this.auth := auth;
      this.embed := embed;
    }

    /** `createProject(name)`: one new row with a fresh id and that name,
        which `getProject` then finds. */
    method CreateProject(name: string) returns (p: Project)
      requires Valid()
      modifies db`projects, db`draws
      ensures Valid()
      ensures p.name == name && p.id !in old(ProjectIds(db.projects))
      ensures db.projects == old(db.projects) + [p]
      ensures GetProject(p.id) == Some(p)
    {
      var id := db.RandomUuid();
      var inserted := db.InsertProject(id, name);
      assert inserted.Ok?;
      UniqueProject(old(db.projects), inserted.value);
      p := GetProject(id).value;
    }

    function GetProject(id: string): Option<Project>
      reads db
    {
      FindProject(db.projects, id)
    }

    /** `deleteProject(id)`: always `true`; the schema cascades to streams
        and logs, and the vectors of those logs stay. */
    method DeleteProject(id: string) returns (ok: bool)
      requires Valid()
      modifies db`projects, db`streams, db`logs
      ensures Valid() && ok
      ensures db.State() == ProjectDeleted(old(db.State()), id)
      ensures GetProject(id) == None
    {
      db.DeleteProject(id);
      return true;
    }

    function ListProjects(): seq<Listing>
      reads db
    {
      Tables.ListProjects(db.projects, db.streams)
    }

    /** `createStream(projectId, type, name, config = {})`: the row is
        inserted (the project must exist), then the token is signed; a
        failure to sign leaves the row in place. The stream returned has its
        config parsed back from JSON. */
    method CreateStream(projectId: string, kind: string, name: string, config: Value, random: string)
      returns (r: Result<Created>)
      requires Valid() && random != ""
      modifies db`streams, db`draws, db`config, auth`secretKey
      ensures Valid()
      ensures projectId !in old(ProjectIds(db.projects)) ==> r.Err? && db.streams == old(db.streams)
      ensures projectId in old(ProjectIds(db.projects)) ==>
        && |db.streams| == |old(db.streams)| + 1 && db.streams[..|old(db.streams)|] == old(db.streams)
        && var row := db.streams[|old(db.streams)|];
           && row.id !in old(StreamIds(db.streams))
           && row.projectId == Some(projectId) && row.kind == kind && row.name == name
           && row.config == Stored(if config.Undefined? then Obj([]) else config)
           && var init := Initialized(old(auth.secretKey), old(db.config), random).0;
              r == if init.Ok?
                   then Ok(Created(ParsedStream(row), auth.jwt.sign(StreamClaims(row.id), init.value, Algorithm)))
                   else Err(init.error)
    {
      var id := db.RandomUuid();
      var inserted := db.InsertStream(id, Some(projectId), kind, name, if config.Undefined? then Obj([]) else config);
      if inserted.Err? {
        return Err(inserted.error);
      }
      var row := inserted.value;
      ghost var streams := db.streams;
      assert streams[..|old(db.streams)|] == old(db.streams) && streams[|old(db.streams)|] == row;
      var token := auth.CreateStreamToken(id, random);
      assert db.streams == streams;
      if token.Err? {
        return Err(token.error);
      }
      UniqueStream(old(db.streams), row);
      var found := GetStream(id);
      assert found == Some(ParsedStream(row));
      return Ok(Created(found.value, token.value));
    }

    /** `getStream(id)`: the row with that id, its config parsed;
        `undefined` when there is none. */
    function GetStream(id: string): (r: Option<Stream>)
      reads db
      ensures r.Some? <==> id in StreamIds(db.streams)
      ensures r.Some? ==> && r.value.id == id && r.value.config.Parsed?
                          && exists s :: s in db.streams && r.value == ParsedStream(s)
    {
      match FindStream(db.streams, id)
      case None => None
      case Some(row) => Some(ParsedStream(row))
    }

    /** `deleteStream(id)`: always `true`; the schema cascades to the logs,
        and their vectors stay. */
    method DeleteStream(id: string) returns (ok: bool)
      requires Valid()
      modifies db`streams, db`logs
      ensures Valid() && ok
      ensures db.State() == StreamDeleted(old(db.State()), id)
      ensures GetStream(id) == None
    {
      db.DeleteStream(id);
      return true;
    }

    function ListStreams(projectId: string): seq<Stream>
      reads db
    {
      Tables.ListStreams(db.streams, projectId)
    }

    /** `addLog(streamId, content, metadata = {})`. The embedding is asked
        for first and its failure ignored; then, in one transaction, the log
        row is inserted and, for an embedding of exactly 1024 numbers, its
        vector. An embedding of another non-zero length is skipped with a
        warning and the log kept. A vector left behind by a deleted log can
        hold the new rowid; its insert then fails and the transaction rolls
        back. The content is the third of the insert's four arguments, which
        better-sqlite3 spreads when it is an array; a failed statement
        throws a `SqliteError`. */
    method AddLog(streamId: string, content: Value, metadata: Value) returns (r: Result<string>)
      requires Valid()
      modifies db`logs, db`vectors, db`draws
      ensures Valid()
      ensures r.Ok? <==> && streamId in StreamIds(db.streams) && BindArgument(content, "logs.content", 1, BetterSqlite3).Ok?
                         && (embed(content) == Vector(VectorDimensions) ==> NextRowid(old(db.logs)) !in old(db.vectors))
      ensures r.Err? ==> db.logs == old(db.logs) && db.vectors == old(db.vectors)
      ensures var text := BindArgument(content, "logs.content", 1, BetterSqlite3);
              r.Err? ==> r.error == if text.Err? then text.error
                                    else if streamId !in StreamIds(db.streams) then "SqliteError: " + ForeignKeyFailed
                                    else "SqliteError: " + VectorRowidTaken
      ensures r.Ok? ==>
        && |db.logs| == |old(db.logs)| + 1 && db.logs[..|old(db.logs)|] == old(db.logs)
        && NextRowid(db.logs) == NextRowid(old(db.logs)) + 1
        && var row := db.logs[|old(db.logs)|];
           && row.id == r.value && r.value !in old(LogIds(db.logs))
           && row.rowid == NextRowid(old(db.logs))
           && row.streamId == streamId && row.content == BindArgument(content, "logs.content", 1, BetterSqlite3).value
           && row.metadata == Stored(if metadata.Undefined? then Obj([]) else metadata)
           && db.vectors == if embed(content) == Vector(VectorDimensions)
                            then old(db.vectors) + {row.rowid} else old(db.vectors)
    {
      var embedding := embed(content);
      var id := db.RandomUuid();
      var saved := db.State();
      var row := Insert(id, streamId, content, if metadata.Undefined? then Obj([]) else metadata, embedding);
      if row.Err? {
        db.Restore(saved);
        return Err(row.error);
      }
      return Ok(id);
    }

    /** The inserts of `addLog`'s transaction: the log row, then its vector
        for an embedding of exactly 1024 numbers. An embedding of another
        non-zero length is skipped with a warning and the row kept. A
        failure may leave the row behind, for the rollback to remove. */
    method Insert(id: string, streamId: string, content: Value, metadata: Value, embedding: Embedding)
      returns (r: Result<LogRow>)
      requires db.Valid() && db.Drawn(id) && id !in LogIds(db.logs)
      modifies db`logs, db`vectors, db`draws
      ensures db.Valid()
      ensures r.Ok? <==> && streamId in StreamIds(db.streams) && BindArgument(content, "logs.content", 1, BetterSqlite3).Ok?
                         && (embedding == Vector(VectorDimensions) ==> NextRowid(old(db.logs)) !in old(db.vectors))
      ensures r.Err? ==> db.vectors == old(db.vectors) && forall l :: l in old(db.logs) ==> l in db.logs
      ensures var text := BindArgument(content, "logs.content", 1, BetterSqlite3);
              r.Err? ==> r.error == if text.Err? then text.error
                                    else if streamId !in StreamIds(db.streams) then "SqliteError: " + ForeignKeyFailed
                                    else "SqliteError: " + VectorRowidTaken
      ensures r.Ok? ==>
        && r.value == LogRow(NextRowid(old(db.logs)), id, streamId, BindArgument(content, "logs.content", 1, BetterSqlite3).value,
                             r.value.timestamp, Stored(metadata))
        && db.logs == old(db.logs) + [r.value]
        && NextRowid(db.logs) == NextRowid(old(db.logs)) + 1
        && db.vectors == if embedding == Vector(VectorDimensions) then old(db.vectors) + {r.value.rowid} else old(db.vectors)
    {
      var text := BindArgument(content, "logs.content", 1, BetterSqlite3);
      if text.Err? {
        return Err(text.error);
      }
      r := db.InsertLog(id, streamId, text.value, metadata);
      if r.Err? {
        return Err("SqliteError: " + r.error);
      }
      assert r.value in db.logs;
      var indexed := Index(r.value.rowid, embedding);
      if indexed.Err? {
        return Err("SqliteError: " + indexed.error);
      }
    }

    /** The vector row of a new log: only for an embedding of exactly the
        column's 1024 dimensions, any other being skipped; the insert fails
        when a vector already holds the rowid. */
    method Index(rowid: nat, embedding: Embedding) returns (r: Result<()>)
      requires db.Valid() && rowid in Rowids(db.logs)
      modifies db`vectors
      ensures db.Valid()
      ensures r.Ok? <==> (embedding == Vector(VectorDimensions) ==> rowid !in old(db.vectors))
      ensures r.Err? ==> r.error == VectorRowidTaken
      ensures db.vectors == if r.Ok? && embedding == Vector(VectorDimensions) then old(db.vectors) + {rowid}
                            else old(db.vectors)
    {
      if embedding.Vector? && embedding.length > 0 {
        if embedding.length != VectorDimensions {
          return Ok(());
        }
        r := db.InsertVector(rowid, embedding.length);
      } else {
        r := Ok(());
      }
    }

    /** `searchLogs(streamId, query, limit)` up to the nearest-neighbour
        query: an embedding error propagates, a missing embedding gives no
        results. */
    function SearchLogs(query: Value): Result<Search> {
      Searched(embed(query))
    }

    function GetRecentLogs(streamId: string, limit: int, offset: int): seq<LogView>
      reads db
    {
      RecentLogs(db.logs, streamId, limit, offset)
    }
  }
}
