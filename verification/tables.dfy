/** The SQLite database both `DbService` classes share: the tables
    `system_config`, `projects`, `data_streams`, `logs` and the vector
    index `vec_logs`, with the constraints the schema declares
    (packages/core/dist/db/migrate.js): primary keys, the foreign keys with
    `ON DELETE CASCADE` that `PRAGMA foreign_keys = ON` enforces, and the
    1024-float column of `vec_logs`, which has no foreign key.

    `randomUUID()` and `CURRENT_TIMESTAMP` are oracles: the functions `uuid`
    and `clock`, read at a counter that every draw advances. Timestamps are
    clock ticks; their `YYYY-MM-DD HH:MM:SS` text sorts as the ticks do. */
module Tables {
  import opened Wrappers
  import opened Strings
  import opened Json

  // ---------------------------------------------------------------------
  // Rows

  datatype Project = Project(id: string, name: string, createdAt: nat)

  /** A row of `data_streams`; `config` is the document whose JSON text the
      column holds. `project_id` is nullable, so a stream may have no
      project. */
  datatype StreamRow = StreamRow(id: string, projectId: Option<string>, kind: string, name: string,
                                 config: Value, createdAt: nat)

  /** A row of `logs` with its implicit `rowid`; `metadata` is the document
      whose JSON text the column holds. */
  datatype LogRow = LogRow(rowid: nat, id: string, streamId: string, content: string,
                           timestamp: nat, metadata: Value)

  /** What a query hands back for a JSON column: the text itself, or the
      document `JSON.parse` made of it. */
  datatype Config = JsonText(doc: Value) | Parsed(doc: Value)

  /** A stream as the service returns it. */
  datatype Stream = Stream(id: string, projectId: Option<string>, kind: string, name: string,
                           config: Config, createdAt: nat)

  /** A project with its streams attached (`{ ...p, streams }`). */
  datatype Listing = Listing(project: Project, streams: seq<Stream>)

  /** A log as `getRecentLogs` returns it. Its `id` is not selected by the
      query, so the returned object carries none. */
  datatype LogView = LogView(streamId: string, content: string, timestamp: nat, metadata: Value)

  /** The whole content of the database, as a transaction saves it. */
  datatype Snapshot = Snapshot(config: map<string, string>, projects: seq<Project>,
                               streams: seq<StreamRow>, logs: seq<LogRow>, vectors: set<nat>)

  function ProjectIds(ps: seq<Project>): set<string> {
    set p | p in ps :: p.id
  }

  function StreamIds(ss: seq<StreamRow>): set<string> {
    set s | s in ss :: s.id
  }

  function LogIds(ls: seq<LogRow>): set<string> {
    set l | l in ls :: l.id
  }

  function CreatedAt(p: Project): nat { p.createdAt }
  function StreamCreatedAt(s: StreamRow): nat { s.createdAt }
  function LogTime(l: LogRow): nat { l.timestamp }

  // ---------------------------------------------------------------------
  // Query building blocks: WHERE, ORDER BY ... DESC, LIMIT ... OFFSET

  /** The rows that satisfy `keep`, in table order. */
  function Filter<T(!new)>(s: seq<T>, keep: T -> bool): (r: seq<T>)
    ensures |r| <= |s|
    ensures forall x :: x in r <==> x in s && keep(x)
  {
    if s == [] then []
    else
      var rest := Filter(s[..|s| - 1], keep);
      assert forall x :: x in s <==> x in s[..|s| - 1] || x == s[|s| - 1] by {
        assert s == s[..|s| - 1] + [s[|s| - 1]];
      }
      if keep(s[|s| - 1]) then rest + [s[|s| - 1]] else rest
  }

  predicate SortedDesc<T>(s: seq<T>, key: T -> nat) {
    forall i, j :: 0 <= i < j < |s| ==> key(s[i]) >= key(s[j])
  }

  /** `x` placed after every element whose key is at least its own. */
  function InsertDesc<T(==,!new)>(s: seq<T>, x: T, key: T -> nat): (r: seq<T>)
    requires SortedDesc(s, key)
    ensures multiset(r) == multiset(s) + multiset{x}
    ensures SortedDesc(r, key)
  {
    if s == [] || key(s[|s| - 1]) >= key(x) then s + [x]
    else
      var init, last := s[..|s| - 1], s[|s| - 1];
      assert s == init + [last];
      var front := InsertDesc(init, x, key);
      KeysAbove(front, init, x, last, key);
      front + [last]
  }

  lemma {:induction false} KeysAbove<T(!new)>(front: seq<T>, init: seq<T>, x: T, last: T, key: T -> nat)
    requires multiset(front) == multiset(init) + multiset{x}
    requires forall i :: 0 <= i < |init| ==> key(init[i]) >= key(last)
    requires key(x) >= key(last)
    ensures forall i :: 0 <= i < |front| ==> key(front[i]) >= key(last)
  {
    forall i | 0 <= i < |front| ensures key(front[i]) >= key(last) {
      var y := front[i];
      assert y in multiset(front);
      if y != x {
        assert y in multiset(init);
        var k :| 0 <= k < |init| && init[k] == y;
      }
    }
  }

  /** `ORDER BY key DESC`. SQLite leaves the order of equal keys open; the
      model keeps them in table order. */
  function SortDesc<T(==,!new)>(s: seq<T>, key: T -> nat): (r: seq<T>)
    ensures multiset(r) == multiset(s)
    ensures SortedDesc(r, key)
  {
    if s == [] then []
    else
      assert s == s[..|s| - 1] + [s[|s| - 1]];
      InsertDesc(SortDesc(s[..|s| - 1], key), s[|s| - 1], key)
  }

  function Max(a: int, b: int): int { if a >= b then a else b }
  function Min(a: int, b: int): int { if a <= b then a else b }

  /** Where the window opens: a negative offset counts as none, and past
      the end nothing is left. */
  function WindowStart(n: nat, offset: int): (start: nat)
    ensures start <= n
  {
    Min(Max(offset, 0), n)
  }

  /** `LIMIT limit OFFSET offset` as SQLite reads the bounds: a negative
      offset counts as 0 and a negative limit means no limit. */
  function Window<T>(s: seq<T>, limit: int, offset: int): (r: seq<T>)
    ensures var start := WindowStart(|s|, offset);
      && |r| == (if limit < 0 then |s| - start else Min(limit, |s| - start))
      && forall i :: 0 <= i < |r| ==> r[i] == s[start + i]
  {
    var start := Min(Max(offset, 0), |s|);
    var rest := s[start..];
    if limit < 0 then rest else rest[..Min(limit, |rest|)]
  }

  // ---------------------------------------------------------------------
  // The queries of DbService

  function RowsOfStream(logs: seq<LogRow>, streamId: string): seq<LogRow> {
    Filter(logs, (l: LogRow) => l.streamId == streamId)
  }

  /** A window of a sequence sorted newest first is sorted and holds only
      its elements; with no offset and room for every element, it is the
      whole sequence. */
  lemma {:induction false} WindowOfSorted<T>(s: seq<T>, limit: int, offset: int, key: T -> nat)
    requires SortedDesc(s, key)
    ensures var r := Window(s, limit, offset);
      && SortedDesc(r, key) && (forall x :: x in r ==> x in s)
      && (offset <= 0 && (limit < 0 || limit >= |s|) ==> r == s)
  {
    var r := Window(s, limit, offset);
    var start := WindowStart(|s|, offset);
    forall i, j | 0 <= i < j < |r| ensures key(r[i]) >= key(r[j]) {
      assert r[i] == s[start + i] && r[j] == s[start + j];
    }
    forall x | x in r ensures x in s {
      var i :| 0 <= i < |r| && r[i] == x;
      assert s[start + i] == x;
    }
    if offset <= 0 && (limit < 0 || limit >= |s|) {
      assert start == 0 && |r| == |s|;
      assert forall i :: 0 <= i < |r| ==> r[i] == s[i];
    }
  }

  /** Every row of the stream, newest first: `WHERE stream_id = ? ORDER BY
      timestamp DESC` before its window is taken. */
  function NewestFirst(logs: seq<LogRow>, streamId: string): (r: seq<LogRow>)
    ensures multiset(r) == multiset(RowsOfStream(logs, streamId))
    ensures |r| == |RowsOfStream(logs, streamId)|
    ensures SortedDesc(r, LogTime)
  {
    var r := SortDesc(RowsOfStream(logs, streamId), LogTime);
    assert |r| == |multiset(r)|;
    r
  }

  /** `SELECT ... FROM logs WHERE stream_id = ? ORDER BY timestamp DESC
      LIMIT ? OFFSET ?`: the stream's rows newest first, from the offset on
      (a negative one counts as none), `limit` of them or as many as are
      left (all of them for a negative limit). */
  function RecentRows(logs: seq<LogRow>, streamId: string, limit: int, offset: int): (r: seq<LogRow>)
    ensures var n := |RowsOfStream(logs, streamId)|;
            var start := WindowStart(n, offset);
      && |r| == (if limit < 0 then n - start else Min(limit, n - start))
      && forall i :: 0 <= i < |r| ==> r[i] == NewestFirst(logs, streamId)[start + i]
    ensures forall l :: l in r ==> l in logs && l.streamId == streamId
    ensures SortedDesc(r, LogTime)
    ensures limit >= 0 ==> |r| <= limit
    ensures offset <= 0 && (limit < 0 || limit >= |RowsOfStream(logs, streamId)|) ==>
              multiset(r) == multiset(RowsOfStream(logs, streamId))
  {
    var sorted := NewestFirst(logs, streamId);
    WindowOfNewest(logs, streamId, limit, offset);
    Window(sorted, limit, offset)
  }

  lemma {:induction false} WindowOfNewest(logs: seq<LogRow>, streamId: string, limit: int, offset: int)
    ensures var r := Window(NewestFirst(logs, streamId), limit, offset);
      && (forall l :: l in r ==> l in logs && l.streamId == streamId)
      && SortedDesc(r, LogTime)
      && (offset <= 0 && (limit < 0 || limit >= |RowsOfStream(logs, streamId)|) ==>
            multiset(r) == multiset(RowsOfStream(logs, streamId)))
  {
    var rows := RowsOfStream(logs, streamId);
    var sorted := NewestFirst(logs, streamId);
    WindowOfSorted(sorted, limit, offset, LogTime);
    forall l | l in sorted ensures l in rows {
      assert l in multiset(sorted);
    }
  }

  /** The metadata a query returns: a stored object or array with at least
      one key, else `{}` (for `{}`, `[]`, `null`, a scalar, or text that is
      not JSON). */
  function NormaliseMetadata(meta: Value): (r: Value)
    ensures (meta.Obj? && meta.members != []) || (meta.Arr? && meta.items != []) ==> r == meta
    ensures !((meta.Obj? && meta.members != []) || (meta.Arr? && meta.items != [])) ==> r == Obj([])
  {
    match meta
    case Obj(ms) => if ms != [] then meta else Obj([])
    case Arr(items) => if items != [] then meta else Obj([])
    case _ => Obj([])
  }

  function View(l: LogRow, streamId: string): LogView {
    LogView(streamId, l.content, l.timestamp, NormaliseMetadata(l.metadata))
  }

  /** Each row as a query returns it, in order. */
  function Views(rows: seq<LogRow>, streamId: string): (r: seq<LogView>)
    ensures |r| == |rows|
    ensures forall i :: 0 <= i < |r| ==> r[i] == View(rows[i], streamId)
  {
    seq(|rows|, i requires 0 <= i < |rows| => View(rows[i], streamId))
  }

  /** `v` is what a query returns for some stored log of stream `streamId`. */
  ghost predicate StoredView(logs: seq<LogRow>, streamId: string, v: LogView) {
    exists l :: l in logs && l.streamId == streamId && v == View(l, streamId)
  }

  /** Views of newest-first rows of one stream are newest first, and each
      the view of a stored row. */
  lemma {:induction false} ViewsOfRows(logs: seq<LogRow>, rows: seq<LogRow>, streamId: string)
    requires forall l :: l in rows ==> l in logs && l.streamId == streamId
    requires SortedDesc(rows, LogTime)
    ensures forall i, j :: 0 <= i < j < |rows| ==> Views(rows, streamId)[i].timestamp >= Views(rows, streamId)[j].timestamp
    ensures forall i :: 0 <= i < |rows| ==> StoredView(logs, streamId, Views(rows, streamId)[i])
  {
    var r := Views(rows, streamId);
    forall i, j | 0 <= i < j < |rows| ensures r[i].timestamp >= r[j].timestamp {
      assert LogTime(rows[i]) >= LogTime(rows[j]);
    }
    forall i | 0 <= i < |rows| ensures StoredView(logs, streamId, r[i]) {
      assert rows[i] in rows;
    }
  }

  /** `getRecentLogs(streamId, limit, offset)`: the view of each row of the
      window `RecentRows` takes, in that order. */
  function RecentLogs(logs: seq<LogRow>, streamId: string, limit: int, offset: int): (r: seq<LogView>)
    ensures var n := |RowsOfStream(logs, streamId)|;
            var start := WindowStart(n, offset);
      && |r| == (if limit < 0 then n - start else Min(limit, n - start))
      && forall i :: 0 <= i < |r| ==> r[i] == View(NewestFirst(logs, streamId)[start + i], streamId)
    ensures limit >= 0 ==> |r| <= limit
    ensures forall i :: 0 <= i < |r| ==> r[i].streamId == streamId
    ensures forall i, j :: 0 <= i < j < |r| ==> r[i].timestamp >= r[j].timestamp
    ensures forall i :: 0 <= i < |r| ==> StoredView(logs, streamId, r[i])
  {
    var rows := RecentRows(logs, streamId, limit, offset);
    ViewsOfRows(logs, rows, streamId);
    Views(rows, streamId)
  }

  /** The stream as `getStream` and `listStreams` return it: config parsed. */
  function ParsedStream(s: StreamRow): Stream {
    Stream(s.id, s.projectId, s.kind, s.name, Parsed(s.config), s.createdAt)
  }

  /** The stream as `SELECT *` returns it: config still JSON text. */
  function RawStream(s: StreamRow): Stream {
    Stream(s.id, s.projectId, s.kind, s.name, JsonText(s.config), s.createdAt)
  }

  function StreamsOf(streams: seq<StreamRow>, projectId: string): (r: seq<StreamRow>)
    ensures forall s :: s in r <==> s in streams && s.projectId == Some(projectId)
  {
    Filter(streams, (s: StreamRow) => s.projectId == Some(projectId))
  }

  /** Stream rows as `SELECT *` returns them, in order. */
  function RawStreams(rows: seq<StreamRow>): (r: seq<Stream>)
    ensures |r| == |rows| && forall k :: 0 <= k < |r| ==> r[k] == RawStream(rows[k])
  {
    seq(|rows|, k requires 0 <= k < |rows| => RawStream(rows[k]))
  }

  /** The projects of a listing, in order. */
  function ProjectsOf(r: seq<Listing>): (ps: seq<Project>)
    ensures |ps| == |r| && forall i :: 0 <= i < |r| ==> ps[i] == r[i].project
  {
    seq(|r|, i requires 0 <= i < |r| => r[i].project)
  }

  /** `listProjects()`: every project, newest first, each with the streams
      of that project in table order, their config left as text. */
  function ListProjects(projects: seq<Project>, streams: seq<StreamRow>): (r: seq<Listing>)
    ensures |r| == |projects|
    ensures multiset(ProjectsOf(r)) == multiset(projects)
    ensures forall i, j :: 0 <= i < j < |r| ==> r[i].project.createdAt >= r[j].project.createdAt
    ensures forall i :: 0 <= i < |r| ==> r[i].streams == RawStreams(StreamsOf(streams, r[i].project.id))
  {
    var sorted := SortDesc(projects, CreatedAt);
    assert |sorted| == |multiset(sorted)| == |projects|;
    var r := seq(|sorted|, i requires 0 <= i < |sorted| =>
                Listing(sorted[i], RawStreams(StreamsOf(streams, sorted[i].id))));
    assert ProjectsOf(r) == sorted;
    r
  }

  /** A project is listed exactly when its row is in the table. */
  lemma {:induction false} ListedProjects(projects: seq<Project>, streams: seq<StreamRow>, p: Project)
    ensures var r := ListProjects(projects, streams);
      (exists i :: 0 <= i < |r| && r[i].project == p) <==> p in projects
  {
    var r := ListProjects(projects, streams);
    var ps := ProjectsOf(r);
    assert p in ps <==> p in multiset(ps);
    assert p in projects <==> p in multiset(projects);
    if p in ps {
      var i :| 0 <= i < |ps| && ps[i] == p;
      assert r[i].project == p;
    }
  }

  /** A reordering has the same elements. */
  lemma {:induction false} PermutationSameElements<T(!new)>(a: seq<T>, b: seq<T>)
    requires multiset(a) == multiset(b)
    ensures |a| == |b|
    ensures forall x :: x in a <==> x in b
  {
    assert |a| == |multiset(a)|;
    forall x ensures x in a <==> x in b {
      assert x in a <==> x in multiset(a);
    }
  }

  /** Each row presented with its config parsed, in the same order. */
  function ParsedStreams(rows: seq<StreamRow>): (r: seq<Stream>)
    ensures |r| == |rows|
    ensures forall i :: 0 <= i < |r| ==> r[i] == ParsedStream(rows[i])
  {
    if rows == [] then [] else [ParsedStream(rows[0])] + ParsedStreams(rows[1..])
  }

  /** `listStreams(projectId)`: the project's streams, newest first, with
      their config parsed. */
  function ListStreams(streams: seq<StreamRow>, projectId: string): seq<Stream> {
    ParsedStreams(SortDesc(StreamsOf(streams, projectId), StreamCreatedAt))
  }

  /** `listStreams` returns exactly the streams of that project, each once
      per row, newest first. */
  lemma {:induction false} ListStreamsExactly(streams: seq<StreamRow>, projectId: string)
    ensures var r := ListStreams(streams, projectId);
      && |r| == |StreamsOf(streams, projectId)|
      && (forall i :: 0 <= i < |r| ==> r[i].projectId == Some(projectId) && r[i].config.Parsed?)
      && (forall s :: s in streams && s.projectId == Some(projectId) ==> ParsedStream(s) in r)
      && (forall i, j :: 0 <= i < j < |r| ==> r[i].createdAt >= r[j].createdAt)
  {
    var own := StreamsOf(streams, projectId);
    var sorted := SortDesc(own, StreamCreatedAt);
    PermutationSameElements(sorted, own);
    var r := ParsedStreams(sorted);
    forall i | 0 <= i < |r| ensures r[i].projectId == Some(projectId) {
      assert sorted[i] in own;
    }
    forall s | s in streams && s.projectId == Some(projectId) ensures ParsedStream(s) in r {
      assert s in sorted;
      var i :| 0 <= i < |sorted| && sorted[i] == s;
      assert r[i] == ParsedStream(s);
    }
    forall i, j | 0 <= i < j < |r| ensures r[i].createdAt >= r[j].createdAt {
      assert StreamCreatedAt(sorted[i]) >= StreamCreatedAt(sorted[j]);
    }
  }

  /** `SELECT * FROM projects WHERE id = ?`: `undefined` when there is none. */
  function FindProject(projects: seq<Project>, id: string): (r: Option<Project>)
    ensures r.Some? <==> id in ProjectIds(projects)
    ensures r.Some? ==> r.value in projects && r.value.id == id
  {
    if projects == [] then None
    else if projects[0].id == id then Some(projects[0])
    else
      var r := FindProject(projects[1..], id);
      assert ProjectIds(projects) == {projects[0].id} + ProjectIds(projects[1..]) by {
        assert forall p :: p in projects <==> p == projects[0] || p in projects[1..];
      }
      r
  }

  /** `SELECT * FROM data_streams WHERE id = ?`. */
  function FindStream(streams: seq<StreamRow>, id: string): (r: Option<StreamRow>)
    ensures r.Some? <==> id in StreamIds(streams)
    ensures r.Some? ==> r.value in streams && r.value.id == id
  {
    if streams == [] then None
    else if streams[0].id == id then Some(streams[0])
    else
      var r := FindStream(streams[1..], id);
      assert StreamIds(streams) == {streams[0].id} + StreamIds(streams[1..]) by {
        assert forall s :: s in streams <==> s == streams[0] || s in streams[1..];
      }
      r
  }

  /** A row appended with a new id is the one a lookup by that id finds. */
  lemma {:induction false} UniqueStream(streams: seq<StreamRow>, row: StreamRow)
    requires row.id !in StreamIds(streams)
    ensures FindStream(streams + [row], row.id) == Some(row)
  {
    var found := FindStream(streams + [row], row.id);
    assert found.value in streams + [row];
  }

  lemma {:induction false} UniqueProject(projects: seq<Project>, p: Project)
    requires p.id !in ProjectIds(projects)
    ensures FindProject(projects + [p], p.id) == Some(p)
  {
    var found := FindProject(projects + [p], p.id);
    assert found.value in projects + [p];
  }

  /** The rowid SQLite gives the next row: one more than the largest in the
      table, 1 for an empty table. */
  function NextRowid(logs: seq<LogRow>): (r: nat)
    ensures r >= 1
    ensures forall l :: l in logs ==> l.rowid < r
  {
    if logs == [] then 1
    else
      var rest := NextRowid(logs[..|logs| - 1]);
      assert forall l :: l in logs ==> l in logs[..|logs| - 1] || l == logs[|logs| - 1] by {
        assert logs == logs[..|logs| - 1] + [logs[|logs| - 1]];
      }
      Max(rest, logs[|logs| - 1].rowid + 1)
  }

  // ---------------------------------------------------------------------
  // Referential integrity and deletion

  /** Every stream's `project_id` is NULL or names a project: SQLite does
      not check a foreign key whose child value is NULL. */
  predicate StreamsOwned(projects: seq<Project>, streams: seq<StreamRow>) {
    forall s :: s in streams && s.projectId.Some? ==> s.projectId.value in ProjectIds(projects)
  }

  /** Every log's `stream_id` names a stream. */
  predicate LogsOwned(streams: seq<StreamRow>, logs: seq<LogRow>) {
    forall l :: l in logs ==> l.streamId in StreamIds(streams)
  }

  function Rowids(logs: seq<LogRow>): set<nat> {
    set l | l in logs :: l.rowid
  }

  /** Every row of `vec_logs` belongs to a row of `logs`. */
  predicate VectorsLive(logs: seq<LogRow>, vectors: set<nat>) {
    vectors <= Rowids(logs)
  }

  /** `DELETE FROM data_streams WHERE id = ?` as the schema runs it: the
      cascade removes the stream's logs; `vec_logs` has no foreign key and
      keeps their vectors. */
  function StreamDeleted(t: Snapshot, id: string): Snapshot {
    t.(streams := Filter(t.streams, (s: StreamRow) => s.id != id),
       logs := Filter(t.logs, (l: LogRow) => l.streamId != id))
  }

  /** `DELETE FROM projects WHERE id = ?` as the schema runs it: the cascade
      removes the project's streams and, through them, their logs; vectors
      stay. */
  function ProjectDeleted(t: Snapshot, id: string): Snapshot {
    var streams := Filter(t.streams, (s: StreamRow) => s.projectId != Some(id));
    var kept := StreamIds(streams);
    t.(projects := Filter(t.projects, (p: Project) => p.id != id),
       streams := streams,
       logs := Filter(t.logs, (l: LogRow) => l.streamId in kept))
  }

  /** The vectors whose log is gone removed as well. */
  function WithoutOrphanVectors(t: Snapshot): (r: Snapshot)
    ensures VectorsLive(r.logs, r.vectors)
    ensures r == t.(vectors := r.vectors) && r.vectors <= t.vectors
  {
    t.(vectors := set v | v in t.vectors && v in Rowids(t.logs))
  }

  /** Deleting a project leaves no dangling foreign key. */
  lemma {:induction false} ProjectDeletedKeepsKeys(t: Snapshot, id: string)
    requires StreamsOwned(t.projects, t.streams)
    ensures var t' := ProjectDeleted(t, id);
            StreamsOwned(t'.projects, t'.streams) && LogsOwned(t'.streams, t'.logs)
  {
    var t' := ProjectDeleted(t, id);
    forall s | s in t'.streams && s.projectId.Some? ensures s.projectId.value in ProjectIds(t'.projects) {
      var p :| p in t.projects && p.id == s.projectId.value;
      assert p in t'.projects;
    }
  }

  /** Once a project is deleted, `listProjects` no longer shows it. */
  lemma {:induction false} DeletedProjectUnlisted(t: Snapshot, id: string)
    ensures var t' := ProjectDeleted(t, id);
            var r := ListProjects(t'.projects, t'.streams);
            forall i :: 0 <= i < |r| ==> r[i].project.id != id
  {
    var t' := ProjectDeleted(t, id);
    var r := ListProjects(t'.projects, t'.streams);
    forall i | 0 <= i < |r| ensures r[i].project.id != id {
      ListedProjects(t'.projects, t'.streams, r[i].project);
    }
  }

  /** Deleting a stream leaves no dangling foreign key. */
  lemma {:induction false} StreamDeletedKeepsKeys(t: Snapshot, id: string)
    requires LogsOwned(t.streams, t.logs)
    ensures var t' := StreamDeleted(t, id); LogsOwned(t'.streams, t'.logs)
  {
    var t' := StreamDeleted(t, id);
    forall l | l in t'.logs ensures l.streamId in StreamIds(t'.streams) {
      var s :| s in t.streams && s.id == l.streamId;
      assert s in t'.streams;
    }
  }

  /** No row of `vec_logs` sits at or above the rowid the next log gets,
      so every new log finds its own rowid free in `vec_logs`. */
  predicate NoVectorAhead(logs: seq<LogRow>, vectors: set<nat>) {
    forall v :: v in vectors ==> v < NextRowid(logs)
  }

  /** While every vector belongs to a log, no vector is ahead of the logs,
      and the rowid the next log gets is free in `vec_logs`. */
  lemma {:induction false} NextRowidFree(logs: seq<LogRow>, vectors: set<nat>)
    requires VectorsLive(logs, vectors)
    ensures NoVectorAhead(logs, vectors)
    ensures NextRowid(logs) !in vectors
  {
    forall v | v in vectors ensures v < NextRowid(logs) {
      var l :| l in logs && l.rowid == v;
    }
  }

  /** A row appended with the next rowid moves the next rowid up by one. */
  lemma {:induction false} NextRowidAppend(logs: seq<LogRow>, l: LogRow)
    requires l.rowid == NextRowid(logs)
    ensures NextRowid(logs + [l]) == NextRowid(logs) + 1
  {
    assert (logs + [l])[..|logs|] == logs;
  }

  /** As the schema stands, deleting the stream that holds the newest log
      leaves that log's vector behind, and the next log inserted gets the
      same rowid, so its vector cannot be inserted. */
  lemma OrphanVectorTakesNextRowid()
    ensures var t := Snapshot(map[], [Project("p", "demo", 0)],
                              [StreamRow("s", Some("p"), "terminal", "app", Obj([]), 0)],
                              [LogRow(1, "l", "s", "started", 0, Obj([]))], {1});
            var t' := StreamDeleted(t, "s");
            && VectorsLive(t.logs, t.vectors) && NoVectorAhead(t.logs, t.vectors)
            && t'.logs == [] && NextRowid(t'.logs) in t'.vectors
            && !NoVectorAhead(t'.logs, t'.vectors)
  {
    var t := Snapshot(map[], [Project("p", "demo", 0)],
                      [StreamRow("s", Some("p"), "terminal", "app", Obj([]), 0)],
                      [LogRow(1, "l", "s", "started", 0, Obj([]))], {1});
    assert Rowids(t.logs) == {1} by {
      assert t.logs[0] in t.logs;
    }
    var t' := StreamDeleted(t, "s");
    assert t'.logs == [];
  }

  // ---------------------------------------------------------------------
  // Parameters

  const CannotBind := "SQLite3 can only bind numbers, strings, bigints, buffers, and null"
  const TooFew := "Too few parameter values were provided"
  const TooMany := "Too many parameter values were provided"

  /** How a store's driver binds a JavaScript value: `better-sqlite3`
      (packages/core/src/db/client.ts:1), behind the server store, binds
      every number as a REAL and spreads an array argument over as many
      parameters as it has elements; the CLI store's driver binds a whole
      number as an INTEGER. */
  datatype Driver = CliSqlite | BetterSqlite3

  /** `String(e)` for an error the driver throws: better-sqlite3 throws a
      `TypeError`, a `RangeError` or its own `SqliteError`, whose name
      leads the text; the CLI store's errors are kept as bare messages. */
  function Thrown(driver: Driver, name: string, message: string): (r: string)
    ensures driver.CliSqlite? ==> r == message
    ensures driver.BetterSqlite3? ==> r == name + ": " + message
  {
    match driver
    case CliSqlite => message
    case BetterSqlite3 => name + ": " + message
  }

  /** A value the driver binds to a single parameter. */
  predicate Bindable(v: Value) {
    v.Str? || v.Num? || v.Null? || v.Undefined? || v.NaN?
  }

  /** The text a `TEXT` column's affinity makes of a bound whole number:
      an INTEGER's decimal digits, or a REAL's, which SQLite writes with a
      trailing `.0`. */
  function NumberText(n: int, driver: Driver): string {
    match driver
    case CliSqlite => IntToString(n)
    case BetterSqlite3 => IntToString(n) + ".0"
  }

  /** The text a nullable `TEXT` column receives for a value bound to its
      parameter: a string as it is, a number as the text of what the driver
      bound it as, and NULL (`None`) for `null`, `undefined` and `NaN`;
      a boolean, an array or an object cannot be bound to one parameter. */
  function BindNullable(v: Value, driver: Driver): (r: Result<Option<string>>)
    ensures r.Ok? <==> Bindable(v)
    ensures v.Str? ==> r == Ok(Some(v.s))
    ensures v.Num? && driver.CliSqlite? ==> r == Ok(Some(IntToString(v.n)))
    ensures v.Num? && driver.BetterSqlite3? ==> r == Ok(Some(IntToString(v.n) + ".0"))
    ensures v.Null? || v.Undefined? || v.NaN? ==> r == Ok(None)
    ensures r.Err? ==> r.error == Thrown(driver, "TypeError", CannotBind)
  {
    match v
    case Str(s) => Ok(Some(s))
    case Num(n) => Ok(Some(NumberText(n, driver)))
    case Null => Ok(None)
    case Undefined => Ok(None)
    case NaN => Ok(None)
    case _ => Err(Thrown(driver, "TypeError", CannotBind))
  }

  /** The text a `TEXT NOT NULL` column (named `column`, as the constraint
      message quotes it) receives for a value bound to its parameter: NULL
      breaks the constraint. */
  function BindText(v: Value, column: string, driver: Driver): (r: Result<string>)
    ensures r.Ok? <==> v.Str? || v.Num?
    ensures v.Str? ==> r == Ok(v.s)
    ensures v.Num? && driver.CliSqlite? ==> r == Ok(IntToString(v.n))
    ensures v.Num? && driver.BetterSqlite3? ==> r == Ok(IntToString(v.n) + ".0")
    ensures v.Null? || v.Undefined? || v.NaN? ==>
              r == Err(Thrown(driver, "SqliteError", "NOT NULL constraint failed: " + column))
    ensures !Bindable(v) ==> r == Err(Thrown(driver, "TypeError", CannotBind))
  {
    match BindNullable(v, driver)
    case Err(e) => Err(e)
    case Ok(None) => Err(Thrown(driver, "SqliteError", "NOT NULL constraint failed: " + column))
    case Ok(Some(s)) => Ok(s)
  }

  /** Where better-sqlite3 stops binding an array argument's elements: at
      one it cannot bind, or at one that finds no parameter left. */
  datatype Stop = Unbindable | NoParameterLeft

  /** `String(e)` for the error thrown at a stop. */
  function StopText(stop: Stop): string {
    match stop
    case Unbindable => "TypeError: " + CannotBind
    case NoParameterLeft => "RangeError: " + TooMany
  }

  /** better-sqlite3 binding the elements of an array argument from `items[i]`
      on, one parameter each, with room for `after + 1` of them before the
      statement's remaining arguments: `None` when every element found its
      parameter. */
  function SpreadFrom(items: seq<Value>, i: nat, after: nat): (r: Option<Stop>)
    ensures r.None? <==> forall j :: i <= j < |items| ==> Bindable(items[j]) && j <= after
    decreases |items| - i
  {
    if i >= |items| then None
    else if !Bindable(items[i]) then Some(Unbindable)
    else if i > after then Some(NoParameterLeft)
    else SpreadFrom(items, i + 1, after)
  }

  /** Every element of `items` from index `i` up to `k` is bindable. */
  predicate BindableBetween(items: seq<Value>, i: nat, k: nat)
    requires k <= |items|
  {
    forall j :: i <= j < k ==> Bindable(items[j])
  }

  /** The binding stops at an element it cannot bind exactly when such an
      element still finds a parameter, every element before it being
      bindable. */
  lemma {:induction false} SpreadFromUnbindable(items: seq<Value>, i: nat, after: nat)
    requires i <= after + 1
    ensures SpreadFrom(items, i, after) == Some(Unbindable) <==>
              exists k :: i <= k < |items| && k <= after + 1 && !Bindable(items[k]) && BindableBetween(items, i, k)
    decreases |items| - i
  {
    if i < |items| {
      if !Bindable(items[i]) {
        assert BindableBetween(items, i, i);
      } else if i <= after {
        SpreadFromUnbindable(items, i + 1, after);
        forall k | i + 1 <= k <= |items|
          ensures BindableBetween(items, i, k) <==> BindableBetween(items, i + 1, k)
        {
        }
      }
    }
  }

  /** What better-sqlite3 binds for one argument of a statement, with
      `after` more parameters after the argument's own: a value it binds
      to one parameter is that value; an array is spread over the
      parameters, which only fits when it has exactly one element; a plain
      object supplies named parameters, of which these statements have
      none, so the parameters come up one short. */
  function SpreadArgument(v: Value, after: nat): (r: Result<Value>)
    ensures r.Ok? ==> Bindable(r.value)
    ensures r.Ok? <==> Bindable(v) || (v.Arr? && |v.items| == 1 && Bindable(v.items[0]))
    ensures Bindable(v) ==> r == Ok(v)
    ensures v.Arr? && |v.items| == 1 && Bindable(v.items[0]) ==> r == Ok(v.items[0])
    ensures v.Arr? && v.items == [] ==> r == Err("RangeError: " + TooFew)
    ensures v.Obj? ==> r == Err("RangeError: " + TooFew)
    ensures v.Bool? ==> r == Err("TypeError: " + CannotBind)
  {
    match v
    case Arr(items) =>
      var stop := SpreadFrom(items, 0, after);
      if stop.Some? then Err(StopText(stop.value))
      else if items == [] then Err("RangeError: " + TooFew)
      else if |items| == 1 then Ok(items[0])
      else Err(StopText(NoParameterLeft))
    case Obj(_) => Err("RangeError: " + TooFew)
    case Bool(_) => Err("TypeError: " + CannotBind)
    case _ => Ok(v)
  }

  /** An array argument whose elements are all bindable but that does not
      have exactly one fails with a `RangeError`: too few parameters for
      `[]`, too many for two or more; the `TypeError` comes exactly when an
      element that cannot be bound still finds a parameter, every element
      before it being bindable. */
  lemma {:induction false} SpreadArrayFails(items: seq<Value>, after: nat)
    ensures (forall x :: x in items ==> Bindable(x)) && |items| >= 2 ==>
              SpreadArgument(Arr(items), after) == Err("RangeError: " + TooMany)
    ensures SpreadArgument(Arr(items), after) == Err("TypeError: " + CannotBind) <==>
              exists k :: 0 <= k < |items| && k <= after + 1 && !Bindable(items[k]) && BindableBetween(items, 0, k)
  {
    SpreadFromUnbindable(items, 0, after);
    assert StopText(NoParameterLeft)[0] == ("RangeError: " + TooFew)[0] == 'R' != StopText(Unbindable)[0];
    if (forall x :: x in items ==> Bindable(x)) && |items| >= 2 {
      if SpreadFrom(items, 0, after).None? {
        assert |items| != 1;
      }
    }
  }

  /** The text a `TEXT NOT NULL` column receives for an argument of the
      statement with `after` parameters after its own: better-sqlite3
      spreads it first, so a one-element array binds as its element; the
      CLI store's driver binds it as it is. */
  function BindArgument(v: Value, column: string, after: nat, driver: Driver): (r: Result<string>)
    ensures driver.CliSqlite? ==> r == BindText(v, column, CliSqlite)
    ensures driver.BetterSqlite3? ==>
              (r.Ok? <==> v.Str? || v.Num? || (v.Arr? && |v.items| == 1 && (v.items[0].Str? || v.items[0].Num?)))
    ensures driver.BetterSqlite3? && Bindable(v) ==> r == BindText(v, column, BetterSqlite3)
    ensures driver.BetterSqlite3? && v.Arr? && |v.items| == 1 && Bindable(v.items[0]) ==>
              r == BindText(v.items[0], column, BetterSqlite3)
  {
    match driver
    case CliSqlite => BindText(v, column, driver)
    case BetterSqlite3 =>
      match SpreadArgument(v, after)
      case Err(e) => Err(e)
      case Ok(x) => BindText(x, column, driver)
  }

  /** The characters SQLite skips around a number written as text. */
  predicate SqlSpace(c: char) {
    c == ' ' || c == '\t' || c == '\n' || c == '\U{000B}' || c == '\U{000C}' || c == '\r'
  }

  /** `s` without SQLite's spaces at either end. */
  function TrimSql(s: string): (r: string)
    ensures |r| <= |s|
    ensures r != [] ==> !SqlSpace(r[0]) && !SqlSpace(r[|r| - 1])
    decreases |s|
  {
    if s == [] then s
    else if SqlSpace(s[0]) then TrimSql(s[1..])
    else if SqlSpace(s[|s| - 1]) then TrimSql(s[..|s| - 1])
    else s
  }

  predicate AllDigits(s: string) {
    forall i :: 0 <= i < |s| ==> '0' <= s[i] <= '9'
  }

  /** The integer a text spells as numeric affinity reads it: an optional
      sign, then one or more decimal digits, with only spaces around;
      `None` for any other text. */
  function IntegerText(s: string): (r: Option<int>)
    ensures r.Some? ==> var t := TrimSql(s); t != [] && (AllDigits(t) || AllDigits(t[1..]))
  {
    var t := TrimSql(s);
    var signed := t != [] && (t[0] == '-' || t[0] == '+');
    var digits := if signed then t[1..] else t;
    if digits == [] || !AllDigits(digits) then None
    else if signed && t[0] == '-' then Some(-(DigitsValue(digits, 10) as int))
    else Some(DigitsValue(digits, 10))
  }

  /** The integer SQLite takes for a value bound to `LIMIT`: a number as it
      is, text that spells an integer by numeric affinity; NULL (`null`,
      `undefined`, `NaN`) and other text are a datatype mismatch, and the
      driver refuses booleans, arrays and objects. */
  function BindInteger(v: Value): (r: Result<int>)
    ensures v.Num? ==> r == Ok(v.n)
    ensures r.Ok? ==> v.Num? || (v.Str? && IntegerText(v.s) == Some(r.value))
    ensures v.Str? && IntegerText(v.s).None? ==> r == Err("datatype mismatch")
    ensures v.Null? || v.Undefined? || v.NaN? ==> r == Err("datatype mismatch")
  {
    match v
    case Num(n) => Ok(n)
    case Str(s) => if IntegerText(s).Some? then Ok(IntegerText(s).value) else Err("datatype mismatch")
    case Null => Err("datatype mismatch")
    case Undefined => Err("datatype mismatch")
    case NaN => Err("datatype mismatch")
    case _ => Err(CannotBind)
  }

  /** The decimal text of an integer, bound to `LIMIT`, is that integer. */
  lemma {:induction false} BindIntegerOfText(n: int)
    ensures BindInteger(Str(IntToString(n))) == Ok(n)
  {
    IntegerTextOfInt(n);
  }

  /** The decimal text of an integer reads back as that integer. */
  lemma {:induction false} IntegerTextOfInt(n: int)
    ensures IntegerText(IntToString(n)) == Some(n)
  {
    var m: nat := if n < 0 then -n else n;
    NatToStringValue(m);
    SignedDigits(n, IntToString(n), NatToString(m));
  }

  lemma {:induction false} SignedDigits(n: int, s: string, ds: string)
    requires ds != [] && AllDigits(ds)
    requires n < 0 ==> s == "-" + ds && DigitsValue(ds, 10) == -n
    requires n >= 0 ==> s == ds && DigitsValue(ds, 10) == n
    ensures IntegerText(s) == Some(n)
  {
    if n < 0 {
      NegativeDigits(ds);
    } else {
      PlainDigits(ds);
    }
  }

  /** A run of digits reads as its value. */
  lemma {:induction false} PlainDigits(ds: string)
    requires ds != [] && AllDigits(ds)
    ensures IntegerText(ds) == Some(DigitsValue(ds, 10))
  {
    assert '0' <= ds[0] <= '9' && '0' <= ds[|ds| - 1] <= '9';
    TrimSqlUntouched(ds);
  }

  /** A minus sign and a run of digits read as minus its value. */
  lemma {:induction false} NegativeDigits(ds: string)
    requires ds != [] && AllDigits(ds)
    ensures IntegerText("-" + ds) == Some(-(DigitsValue(ds, 10) as int))
  {
    var s := "-" + ds;
    assert s[0] == '-' && s[|s| - 1] == ds[|ds| - 1] && '0' <= ds[|ds| - 1] <= '9';
    TrimSqlUntouched(s);
    assert s[1..] == ds;
  }

  lemma {:induction false} TrimSqlUntouched(s: string)
    requires s != [] && !SqlSpace(s[0]) && !SqlSpace(s[|s| - 1])
    ensures TrimSql(s) == s
  {
  }

  /** What `generateEmbedding(text)` gives: it throws, it yields nothing,
      or it yields a vector of some length. */
  datatype Embedding = Threw | Missing | Vector(length: nat)

  /** What `searchLogs` has to go on before its nearest-neighbour query:
      no embedding, so no results, or a query vector of some length. */
  datatype Search = NoEmbedding | Nearest(dimensions: nat)

  /** `searchLogs` up to the nearest-neighbour query: an embedding error
      propagates and a missing embedding gives an empty list. */
  function Searched(e: Embedding): (r: Result<Search>)
    ensures r.Err? <==> e.Threw?
    ensures e.Missing? ==> r == Ok(NoEmbedding)
  {
    match e
    case Threw => Err("embedding failed")
    case Missing => Ok(NoEmbedding)
    case Vector(n) => Ok(Nearest(n))
  }

  /** `uuid` never gives the same text at two draws. */
  ghost predicate Injective(uuid: nat -> string) {
    forall i, j :: uuid(i) == uuid(j) ==> i == j
  }

  const VectorDimensions := 1024
  const ConfigKeyTaken := "UNIQUE constraint failed: system_config.key"
  const LogIdTaken := "UNIQUE constraint failed: logs.id"
  const ForeignKeyFailed := "FOREIGN KEY constraint failed"
  const DimensionMismatch := "Dimension mismatch for inserted vector"
  const VectorRowidTaken := "UNIQUE constraint failed on vec_logs primary key"

  /** The database connection and the rows it holds. */
  class Database {
    var config: map<string, string>
    var projects: seq<Project>
    var streams: seq<StreamRow>
    var logs: seq<LogRow>
    var vectors: set<nat>
    /** How many values the oracles have given so far. */
    var draws: nat
    const uuid: nat -> string
    const clock: nat -> nat

    ghost predicate Drawn(id: string)
      reads this
    {
      exists k :: 0 <= k < draws && uuid(k) == id
    }

    /** Every id was drawn from `uuid`, every stream belongs to its project
        (if it names one) and every log to a stream: the foreign keys hold.
        `vec_logs` has none, so a vector may outlive its log. */
    ghost predicate Valid()
      reads this
    {
      && Injective(uuid)
      && (forall p :: p in projects ==> Drawn(p.id))
      && (forall s :: s in streams ==> Drawn(s.id))
      && (forall l :: l in logs ==> Drawn(l.id))
      && StreamsOwned(projects, streams)
      && LogsOwned(streams, logs)
    }

    function State(): Snapshot
      reads this
    {
      Snapshot(config, projects, streams, logs, vectors)
    }

    constructor (uuid: nat -> string, clock: nat -> nat)
      requires Injective(uuid)
      ensures Valid()
      ensures this.uuid == uuid && this.clock == clock && draws == 0
      ensures State() == Snapshot(map[], [], [], [], {})
    {
      this.uuid := uuid;
      this.clock := clock;
      config, projects, streams, logs, vectors, draws := map[], [], [], [], {}, 0;
    }

    /** `randomUUID()`: an id no table holds yet. */
    method RandomUuid() returns (id: string)
      requires Valid()
      modifies this`draws
      ensures Valid()
      ensures id == uuid(old(draws)) && draws == old(draws) + 1
      ensures Drawn(id)
      ensures id !in ProjectIds(projects) && id !in StreamIds(streams) && id !in LogIds(logs)
    {
      id := uuid(draws);
      assert forall k :: 0 <= k < draws ==> uuid(k) != id;
      draws := draws + 1;
    }

    /** `CURRENT_TIMESTAMP` at the moment of an insert. */
    method Now() returns (t: nat)
      requires Valid()
      modifies this`draws
      ensures Valid()
      ensures t == clock(old(draws)) && draws == old(draws) + 1
    {
      t := clock(draws);
      draws := draws + 1;
    }

    /** `INSERT INTO system_config (key, value)`: fails on an existing key. */
    method InsertConfig(key: string, value: string) returns (r: Result<()>)
      requires Valid()
      modifies this`config
      ensures Valid()
      ensures r == if key in old(config) then Err(ConfigKeyTaken) else Ok(())
      ensures config == if r.Ok? then old(config)[key := value] else old(config)
    {
      if key in config {
        return Err(ConfigKeyTaken);
      }
      config := config[key := value];
      return Ok(());
    }

    /** `INSERT INTO projects (id, name)`. */
    method InsertProject(id: string, name: string) returns (r: Result<Project>)
      requires Valid() && Drawn(id)
      modifies this`projects, this`draws
      ensures Valid()
      ensures r.Ok? <==> id !in old(ProjectIds(projects))
      ensures r.Ok? ==> r.value == Project(id, name, clock(old(draws)))
                        && projects == old(projects) + [r.value] && draws == old(draws) + 1
      ensures r.Err? ==> projects == old(projects) && draws == old(draws)
    {
      if id in ProjectIds(projects) {
        return Err("UNIQUE constraint failed: projects.id");
      }
      var now := Now();
      var p := Project(id, name, now);
      projects := projects + [p];
      assert ProjectIds(projects) == old(ProjectIds(projects)) + {id};
      return Ok(p);
    }

    /** `DELETE FROM projects WHERE id = ?` with its cascade; `vec_logs`
        keeps the vectors of the removed logs. */
    method DeleteProject(id: string)
      requires Valid()
      modifies this`projects, this`streams, this`logs
      ensures Valid()
      ensures State() == ProjectDeleted(old(State()), id)
      ensures draws == old(draws)
    {
      var t := ProjectDeleted(State(), id);
      ProjectDeletedKeepsKeys(State(), id);
      projects, streams, logs := t.projects, t.streams, t.logs;
    }

    /** `INSERT INTO data_streams (id, project_id, type, name, config)`:
        the config is written as JSON text; a project id that is not NULL
        must name a project. */
    method InsertStream(id: string, projectId: Option<string>, kind: string, name: string, config: Value)
      returns (r: Result<StreamRow>)
      requires Valid() && Drawn(id)
      modifies this`streams, this`draws
      ensures Valid()
      ensures r.Ok? <==> && id !in old(StreamIds(streams))
                         && (projectId.Some? ==> projectId.value in old(ProjectIds(projects)))
      ensures r.Ok? ==> r.value == StreamRow(id, projectId, kind, name, Stored(config), clock(old(draws)))
                        && streams == old(streams) + [r.value] && draws == old(draws) + 1
      ensures r.Err? ==> streams == old(streams) && draws == old(draws)
    {
      if id in StreamIds(streams) {
        return Err("UNIQUE constraint failed: data_streams.id");
      }
      if projectId.Some? && projectId.value !in ProjectIds(projects) {
        return Err("FOREIGN KEY constraint failed");
      }
      var now := Now();
      var s := StreamRow(id, projectId, kind, name, Stored(config), now);
      streams := streams + [s];
      assert StreamIds(streams) == old(StreamIds(streams)) + {id};
      return Ok(s);
    }

    /** `DELETE FROM data_streams WHERE id = ?` with its cascade;
        `vec_logs` keeps the vectors of the removed logs. */
    method DeleteStream(id: string)
      requires Valid()
      modifies this`streams, this`logs
      ensures Valid()
      ensures State() == StreamDeleted(old(State()), id)
      ensures draws == old(draws)
    {
      var t := StreamDeleted(State(), id);
      StreamDeletedKeepsKeys(State(), id);
      streams, logs := t.streams, t.logs;
    }

    /** `INSERT INTO logs (id, stream_id, content, metadata)`: the row gets
        the next rowid and the current time; the stream must exist. */
    method InsertLog(id: string, streamId: string, content: string, metadata: Value)
      returns (r: Result<LogRow>)
      requires Valid() && Drawn(id)
      modifies this`logs, this`draws
      ensures Valid()
      ensures r.Ok? <==> id !in old(LogIds(logs)) && streamId in StreamIds(streams)
      ensures r.Ok? ==> r.value == LogRow(NextRowid(old(logs)), id, streamId, content, clock(old(draws)), Stored(metadata))
                        && logs == old(logs) + [r.value] && draws == old(draws) + 1
                        && NextRowid(logs) == NextRowid(old(logs)) + 1
      ensures r.Err? ==> logs == old(logs) && draws == old(draws)
                         && r.error == if id in old(LogIds(logs)) then LogIdTaken else ForeignKeyFailed
    {
      if id in LogIds(logs) {
        return Err(LogIdTaken);
      }
      if streamId !in StreamIds(streams) {
        return Err(ForeignKeyFailed);
      }
      var now := Now();
      var l := LogRow(NextRowid(logs), id, streamId, content, now, Stored(metadata));
      NextRowidAppend(logs, l);
      logs := logs + [l];
      return Ok(l);
    }

    /** `INSERT INTO vec_logs(rowid, embedding)`: the vector must have 1024
        components and the rowid must be free. */
    method InsertVector(rowid: nat, dimensions: nat) returns (r: Result<()>)
      requires Valid() && rowid in Rowids(logs)
      modifies this`vectors
      ensures Valid()
      ensures r.Ok? <==> dimensions == VectorDimensions && rowid !in old(vectors)
      ensures vectors == if r.Ok? then old(vectors) + {rowid} else old(vectors)
      ensures r.Err? ==> r.error == if dimensions != VectorDimensions then DimensionMismatch else VectorRowidTaken
    {
      if dimensions != VectorDimensions {
        return Err(DimensionMismatch);
      }
      if rowid in vectors {
        return Err(VectorRowidTaken);
      }
      vectors := vectors + {rowid};
      return Ok(());
    }

    /** `ROLLBACK` of a transaction that only inserted logs and vectors:
        those tables return to what `BEGIN` saw. The oracles' counter is not
        part of the database and keeps its value. */
    method Restore(saved: Snapshot)
      requires Valid()
      requires saved.config == config && saved.projects == projects && saved.streams == streams
      requires forall l :: l in saved.logs ==> l in logs
      modifies this`logs, this`vectors
      ensures Valid()
      ensures State() == saved
    {
      logs, vectors := saved.logs, saved.vectors;
    }
  }
}
