/** `DbService` of the command-line package (cli/src/services/db.ts): the
    same tables as the server's store, without stream tokens. `addLog`
    runs `BEGIN`, the inserts and `COMMIT` itself and, on any failure,
    `ROLLBACK`s and rethrows; its vector insert has no dimension check of
    its own, so the 1024-float column of `vec_logs` decides. */
module CliDb {
  import opened Wrappers
  import opened Json
  import opened Tables

  const DefaultLimit := 50

  /** An embedding `addLog` tries to index: present and not empty. */
  predicate Indexed(e: Embedding) {
    e.Vector? && e.length > 0
  }

  class DbService {
    const db: Database
    /** `ollama.generateEmbedding`. */
    const embed: Value -> Embedding

    constructor (db: Database, embed: Value -> Embedding)
      ensures this.db == db && this.embed == embed
    {
      this.db := db;
      this.embed := embed;
    }

    /** `createProject(name)`: the new row, read back by `getProject`. */
    method CreateProject(name: string) returns (p: Option<Project>)
      requires db.Valid()
      modifies db`projects, db`draws
      ensures db.Valid()
      ensures p.Some? && p.value.name == name && p.value.id !in old(ProjectIds(db.projects))
      ensures db.projects == old(db.projects) + [p.value]
      ensures p == GetProject(p.value.id)
    {
      var id := db.RandomUuid();
      var inserted := db.InsertProject(id, name);
      assert inserted.Ok?;
      UniqueProject(old(db.projects), inserted.value);
      p := GetProject(id);
    }

    /** `getProject(id)`: `undefined` (here `None`) when there is none. */
    function GetProject(id: string): Option<Project>
      reads db
    {
      FindProject(db.projects, id)
    }

    /** `deleteProject(id)`: always `true`; the schema cascades to streams
        and logs, and the vectors of those logs stay. */
    method DeleteProject(id: string) returns (ok: bool)
      requires db.Valid()
      modifies db`projects, db`streams, db`logs
      ensures db.Valid() && ok
      ensures db.State() == ProjectDeleted(old(db.State()), id)
      ensures forall l :: l in ListProjects() ==> l.project.id != id
    {
      DeletedProjectUnlisted(db.State(), id);
      db.DeleteProject(id);
      return true;
    }

    function ListProjects(): seq<Listing>
      reads db
    {
      Tables.ListProjects(db.projects, db.streams)
    }

    /** `createStream(projectId, type, name, config = {})`: the new row, read
        back by `getStream`; the insert throws when a project id is given and
        names no project, and a NULL project id is stored as it is. A config
        JSON represents exactly comes back equal. */
    method CreateStream(projectId: Option<string>, kind: string, name: string, config: Value)
      returns (r: Result<Stream>)
      requires db.Valid()
      modifies db`streams, db`draws
      ensures db.Valid()
      ensures r.Ok? <==> projectId.Some? ==> projectId.value in old(ProjectIds(db.projects))
      ensures r.Err? ==> db.streams == old(db.streams)
      ensures r.Ok? ==>
        && r.value.id !in old(StreamIds(db.streams))
        && r.value.projectId == projectId && r.value.kind == kind && r.value.name == name
        && r.value.config == Parsed(Stored(if config.Undefined? then Obj([]) else config))
        && (Plain(config) ==> r.value.config == Parsed(config))
        && Some(r.value) == GetStream(r.value.id)
        && |db.streams| == |old(db.streams)| + 1 && db.streams[..|old(db.streams)|] == old(db.streams)
    {
      var id := db.RandomUuid();
      var inserted := db.InsertStream(id, projectId, kind, name, if config.Undefined? then Obj([]) else config);
      if inserted.Err? {
        return Err(inserted.error);
      }
      assert db.streams[..|old(db.streams)|] == old(db.streams);
      if Plain(config) {
        StoredPlain(config);
      }
      UniqueStream(old(db.streams), inserted.value);
      var found := GetStream(id);
      return Ok(found.value);
    }

    /** `getStream(id)`: the row with that id, its config parsed. */
    function GetStream(id: string): (r: Option<Stream>)
      reads db
      ensures r.Some? <==> id in StreamIds(db.streams)
      ensures r.Some? ==> && r.value.id == id && r.value.config.Parsed?
                          && exists s :: s in db.streams && r.value == ParsedStream(s)
    {
      match FindStream(db.streams, id)
      case None => None
      case Some(row) => Some(ParsedStream(row))
    }

    /** `deleteStream(id)`: always `true`; the schema cascades to the logs,
        and their vectors stay. */
    method DeleteStream(id: string) returns (ok: bool)
      requires db.Valid()
      modifies db`streams, db`logs
      ensures db.Valid() && ok
      ensures db.State() == StreamDeleted(old(db.State()), id)
      ensures GetStream(id) == None
    {
      db.DeleteStream(id);
      return true;
    }

    function ListStreams(projectId: string): seq<Stream>
      reads db
    {
      Tables.ListStreams(db.streams, projectId)
    }

    /** `addLog(streamId, content, metadata = {})`: `BEGIN`, the log row,
        its vector when the embedding is present and not empty, `COMMIT`.
        Any failure (a missing stream, content the column refuses, a vector
        that is not 1024 floats long, a rowid a vector left by a deleted log
        still holds) is followed by `ROLLBACK`, so a failed call leaves every
        table as it was. */
    method AddLog(streamId: string, content: Value, metadata: Value) returns (r: Result<string>)
      requires db.Valid()
      modifies db`config, db`logs, db`vectors, db`draws
      ensures db.Valid()
      ensures r.Ok? <==> && streamId in StreamIds(db.streams) && BindText(content, "logs.content", CliSqlite).Ok?
                         && (Indexed(embed(content)) ==>
                               embed(content).length == VectorDimensions && NextRowid(old(db.logs)) !in old(db.vectors))
      ensures r.Err? ==> db.State() == old(db.State())
      ensures r.Ok? ==>
        && |db.logs| == |old(db.logs)| + 1 && db.logs[..|old(db.logs)|] == old(db.logs)
        && NextRowid(db.logs) == NextRowid(old(db.logs)) + 1
        && db.config == old(db.config)
        && var row := db.logs[|old(db.logs)|];
           && row.id == r.value && r.value !in old(LogIds(db.logs))
           && row.rowid == NextRowid(old(db.logs))
           && row.streamId == streamId && row.content == BindText(content, "logs.content", CliSqlite).value
           && row.metadata == Stored(if metadata.Undefined? then Obj([]) else metadata)
           && db.vectors == if Indexed(embed(content)) then old(db.vectors) + {row.rowid} else old(db.vectors)
    {
      var embedding := embed(content);
      var id := db.RandomUuid();
      var meta := if metadata.Undefined? then Obj([]) else metadata;
      var saved := db.State();
      var row := Statements(id, streamId, content, meta, embedding);
      if row.Err? {
        db.Restore(saved);
        return Err(row.error);
      }
      return Ok(id);
    }

    /** The statements `addLog` runs after `BEGIN`: the log row, then its
        vector when the embedding is present and not empty. A failure may
        leave the row behind, for `ROLLBACK` to remove. */
    method Statements(id: string, streamId: string, content: Value, metadata: Value, embedding: Embedding)
      returns (r: Result<LogRow>)
      requires db.Valid() && db.Drawn(id) && id !in LogIds(db.logs)
      modifies db`logs, db`vectors, db`draws
      ensures db.Valid()
      ensures r.Ok? <==> && streamId in StreamIds(db.streams) && BindText(content, "logs.content", CliSqlite).Ok?
                         && (Indexed(embedding) ==>
                               embedding.length == VectorDimensions && NextRowid(old(db.logs)) !in old(db.vectors))
      ensures r.Err? ==> db.vectors == old(db.vectors) && forall l :: l in old(db.logs) ==> l in db.logs
      ensures r.Ok? ==>
        && r.value == LogRow(NextRowid(old(db.logs)), id, streamId, BindText(content, "logs.content", CliSqlite).value,
                             r.value.timestamp, Stored(metadata))
        && db.logs == old(db.logs) + [r.value]
        && NextRowid(db.logs) == NextRowid(old(db.logs)) + 1
        && db.vectors == if Indexed(embedding) then old(db.vectors) + {r.value.rowid} else old(db.vectors)
    {
      var text := BindText(content, "logs.content", CliSqlite);
      if text.Err? {
        return Err(text.error);
      }
      r := db.InsertLog(id, streamId, text.value, metadata);
      if r.Err? {
        return r;
      }
      assert r.value in db.logs;
      var indexed := Index(r.value.rowid, embedding);
      if indexed.Err? {
        return Err(indexed.error);
      }
    }

    /** The vector row of a new log, when the embedding is present and not
        empty: `vec_logs` refuses a vector that is not 1024 floats long, or
        whose rowid a vector already holds. */
    method Index(rowid: nat, embedding: Embedding) returns (r: Result<()>)
      requires db.Valid() && rowid in Rowids(db.logs)
      modifies db`vectors
      ensures db.Valid()
      ensures r.Ok? <==> (Indexed(embedding) ==> embedding.length == VectorDimensions && rowid !in old(db.vectors))
      ensures db.vectors == if r.Ok? && Indexed(embedding) then old(db.vectors) + {rowid} else old(db.vectors)
    {
      if Indexed(embedding) {
        r := db.InsertVector(rowid, embedding.length);
      } else {
        r := Ok(());
      }
    }

    function SearchLogs(query: Value): Result<Search> {
      Searched(embed(query))
    }

    /** `getRecentLogs(streamId, limit = 50)`: no offset. */
    function GetRecentLogs(streamId: string, limit: int): seq<LogView>
      reads db
    {
      RecentLogs(db.logs, streamId, limit, 0)
    }
  }
}
