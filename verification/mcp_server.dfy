/** The MCP server of the command-line package (cli/src/mcp/server.ts):
    the server-sent-events transport, the tool and resource handlers over
    the command-line `DbService`, the session table and routes of the HTTP
    server, and its own `/api/ingest`.

    Events follow section 9.2 "Server-sent events" of the WHATWG HTML
    Living Standard: an `event:` line, one `data:` line, and a blank line
    that ends the event. Tool errors carry the JSON-RPC 2.0 error codes. */
module McpServer {
  import opened Wrappers
  import opened Strings
  import opened Json
  import opened Tables
  import opened Ingest
  import CliDb

  // ---------------------------------------------------------------------
  // Server-sent events

  /** The frame `send` enqueues for a message. */
  function MessageEvent(message: Value): string
    requires !message.Undefined?
  {
    "event: message\ndata: " + Serialize(message) + "\n\n"
  }

  /** The first frame of every session: where to post messages. */
  function EndpointEvent(sessionId: string): string {
    "event: endpoint\ndata: /messages?sessionId=" + sessionId + "\n\n"
  }

  /** An event of one field line and one data line, closed by a blank
      line. */
  lemma {:induction false} EventLines(field: string, data: string)
    requires '\n' !in field && '\n' !in data
    ensures Split(field + "\n" + data + "\n\n", '\n') == [field, data, "", ""]
  {
    assert field + "\n" + data + "\n\n" == field + ['\n'] + (data + ['\n'] + ("" + ['\n'] + ""));
    SplitFirst(field, data + ['\n'] + ("" + ['\n'] + ""), '\n');
    SplitFirst(data, "" + ['\n'] + "", '\n');
    SplitFirst("", "", '\n');
  }

  /** Every message goes out as exactly one `data:` line: its JSON text
      holds no line break. */
  lemma {:induction false} MessageEventLines(message: Value)
    requires !message.Undefined?
    ensures Split(MessageEvent(message), '\n') == ["event: message", "data: " + Serialize(message), "", ""]
  {
    SerializeSingleLine(message);
    var data := "data: " + Serialize(message);
    assert '\n' !in data;
    assert MessageEvent(message) == "event: message" + "\n" + data + "\n\n";
    EventLines("event: message", data);
  }

  /** The endpoint event of a session id without line breaks is one `data:`
      line naming the session. */
  lemma {:induction false} EndpointEventLines(sessionId: string)
    requires '\n' !in sessionId
    ensures Split(EndpointEvent(sessionId), '\n')
            == ["event: endpoint", "data: /messages?sessionId=" + sessionId, "", ""]
  {
    var data := "data: /messages?sessionId=" + sessionId;
    assert '\n' !in data;
    assert "event: endpoint\ndata: /messages?sessionId=" == "event: endpoint" + "\n" + "data: /messages?sessionId=";
    assert EndpointEvent(sessionId) == "event: endpoint" + "\n" + data + "\n\n";
    EventLines("event: endpoint", data);
  }

  /** `DenoSseTransport`: the stream controller (`open` while it is not
      `null`), the frames enqueued on it, how often the controller was
      closed and `onclose` called, and the messages handed to
      `onmessage`. */
  class SseTransport {
    const sessionId: string
    var open: bool
    var frames: seq<string>
    var controllerCloses: nat
    var closeNotices: nat
    var inbox: seq<Value>

    /** The controller is closed at most once, and only once it is gone. */
    ghost predicate Valid()
      reads this
    {
      controllerCloses == if open then 0 else 1
    }

    constructor (sessionId: string, first: string)
      ensures Valid() && this.sessionId == sessionId && open
      ensures frames == [first] && closeNotices == 0 && inbox == []
    {
      this.sessionId := sessionId;
      open := true;
      frames := [first];
      controllerCloses := 0;
      closeNotices := 0;
      inbox := [];
    }

    /** `send(message)`: one message event while the controller is there,
        nothing afterwards. */
    method Send(message: Value)
      requires Valid() && !message.Undefined?
      modifies this`frames
      ensures Valid()
      ensures frames == if open then old(frames) + [MessageEvent(message)] else old(frames)
    {
      if !open {
        return;
      }
      frames := frames + [MessageEvent(message)];
    }

    /** `close()`: the controller is closed and dropped the first time;
        `onclose` runs on every call. */
    method Close()
      requires Valid()
      modifies this`open, this`controllerCloses, this`closeNotices
      ensures Valid() && !open
      ensures controllerCloses == 1
      ensures closeNotices == old(closeNotices) + 1
    {
      if open {
        controllerCloses := controllerCloses + 1;
        open := false;
      }
      closeNotices := closeNotices + 1;
    }

    /** `handlePostMessage(message)`. */
    method HandlePostMessage(message: Value)
      modifies this`inbox
      ensures inbox == old(inbox) + [message]
    {
      inbox := inbox + [message];
    }
  }

  /** Closing twice closes the controller once but tells the listener
      twice, and nothing sent in between goes out. */
  method CloseTwice(t: SseTransport, message: Value)
    requires t.Valid() && !message.Undefined?
    modifies t
    ensures t.Valid() && !t.open && t.controllerCloses == 1
    ensures t.closeNotices == old(t.closeNotices) + 2
    ensures t.frames == old(t.frames)
  {
    t.Close();
    t.Send(message);
    t.Close();
  }

  // ---------------------------------------------------------------------
  // Tools and resources

  /** JSON-RPC 2.0 error codes the handlers throw. */
  const InvalidRequest := -32600
  const MethodNotFound := -32601
  const InvalidParams := -32602
  const InternalError := -32603

  datatype McpError = McpError(code: int, message: string)

  /** A handler's answer, or the `McpError` it throws (an error of any
      other kind reaches the client as `InternalError`). */
  datatype Answer<T> = Answer(value: T) | Refused(error: McpError)

  /** The tools `ListTools` announces. */
  datatype Tool = ListProjectsTool | QueryLogs | CreateProject | DeleteProject | DeleteStream

  const ToolNames := ["list_projects", "query_logs", "create_project", "delete_project", "delete_stream"]

  /** The `switch` of `CallTool`. */
  function ToolOf(name: string): (r: Option<Tool>)
    ensures r.Some? <==> name in ToolNames
  {
    if name == "list_projects" then Some(ListProjectsTool)
    else if name == "query_logs" then Some(QueryLogs)
    else if name == "create_project" then Some(CreateProject)
    else if name == "delete_project" then Some(DeleteProject)
    else if name == "delete_stream" then Some(DeleteStream)
    else None
  }

  /** What a tool call answers, before it is written as JSON text. */
  datatype ToolOutput =
    | Projects(listings: seq<Listing>)
    | Created(project: Project)
    | Message(text: string)
    | Logs(logs: seq<LogView>)
    | Neighbours(search: Search)

  /** `query_logs` argument defaults: `limit || 10`, `mode || "recent"`;
      the vector search only for mode "search" with a non-empty query. */
  function QueryLimit(args: Value): Value {
    Or(Field(args, "limit"), Num(10))
  }

  function QueryMode(args: Value): Value {
    Or(Field(args, "mode"), Str("recent"))
  }

  predicate Searching(args: Value) {
    StrictEquals(QueryMode(args), Str("search")) && Truthy(Field(args, "query"))
  }

  /** With no `limit` and no `mode`, the ten most recent logs. */
  lemma {:induction false} QueryDefaults(streamId: string)
    ensures var args := Obj([Member("streamId", Str(streamId))]);
            QueryLimit(args) == Num(10) && QueryMode(args) == Str("recent") && !Searching(args)
  {
    var ms := [Member("streamId", Str(streamId))];
    assert "streamId"[0] != "limit"[0] && "streamId"[0] != "mode"[0] && "streamId"[0] != "query"[0];
    assert Get(ms, "limit") == Get([], "limit");
    assert Get(ms, "mode") == Get([], "mode");
    assert Get(ms, "query") == Get([], "query");
  }

  /** A resource `ListResources` lists: one per project. */
  datatype Resource = Resource(uri: string, name: string, mimeType: string, description: string)

  const ProjectScheme := "loggerhead://project/"

  function Resources(listings: seq<Listing>): (r: seq<Resource>)
    ensures |r| == |listings|
    ensures forall i :: 0 <= i < |r| ==>
              && r[i].uri == ProjectScheme + listings[i].project.id
              && r[i].name == listings[i].project.name
              && r[i].description == "Project: " + listings[i].project.name
  {
    seq(|listings|, i requires 0 <= i < |listings| =>
        var p := listings[i].project;
        Resource(ProjectScheme + p.id, p.name, "application/json", "Project: " + p.name))
  }

  /** The id `ReadResource` takes from a URI: the second `/`-separated
      piece of its path; `None` is the `undefined` of a path without one. */
  function ResourceId(pathname: string): Option<string> {
    var pieces := Split(pathname, '/');
    if |pieces| >= 2 then Some(pieces[1]) else None
  }

  /** A listed project's URI, whose path is "/" followed by the id, reads
      back that project's id. */
  lemma {:induction false} ResourceIdOfPath(id: string)
    requires '/' !in id
    ensures ResourceId("/" + id) == Some(id)
  {
    assert "/" + id == "" + ['/'] + id;
    SplitFirst("", id, '/');
    SplitWithout(id, '/');
  }

  // ---------------------------------------------------------------------
  // HTTP

  /** What the HTTP server answers; `Stream` is the event stream of a new
      session. */
  datatype Reply =
    | Text(status: nat, text: string)
    | JsonBody(status: nat, body: Value)
    | ProjectList(listings: seq<Listing>)
    | StreamList(streams: seq<Stream>)
    | StreamCreated(stream: Stream)
    | EventStream(sessionId: string)

  /** An exception thrown inside the handler: Deno answers 500. */
  const Crashed := Text(500, "Internal Server Error")

  /** The route a request takes, before anything about its body is known.
      `/api/streams` that finds no project id falls through to 404. */
  datatype Route = Preflight | SessionRoute | MessagesRoute | IngestRoute | ProjectsRoute
                 | StreamsRoute | CreateStreamRoute | NotFound

  function RouteOf(httpMethod: string, pathname: string): (r: Route)
    ensures httpMethod == "OPTIONS" <==> r == Preflight
    ensures r == NotFound ==> httpMethod != "OPTIONS"
  {
    if httpMethod == "OPTIONS" then Preflight
    else if pathname == "/mcp" then SessionRoute
    else if pathname == "/messages" then MessagesRoute
    else if pathname == "/api/ingest" then IngestRoute
    else if pathname == "/api/projects" && (httpMethod == "POST" || httpMethod == "GET") then ProjectsRoute
    else if pathname == "/api/streams" then StreamsRoute
    else if pathname == "/api/streams/create" && httpMethod == "POST" then CreateStreamRoute
    else NotFound
  }

  /** An entry the command-line `addLog` stores: the stream id binds and
      names a stream, the content binds, and a present non-empty embedding
      has the 1024 dimensions of the vector column. */
  predicate Accepted(streams: seq<StreamRow>, embed: Value -> Embedding, streamId: Result<string>, e: Entry) {
    && streamId.Ok? && streamId.value in StreamIds(streams) && BindText(e.content, "logs.content", CliSqlite).Ok?
    && (CliDb.Indexed(embed(e.content)) ==> embed(e.content).length == VectorDimensions)
  }

  /** What the command-line `addLog` asks of an entry: that it is
      accepted, and, for a present non-empty embedding, a free rowid for
      its vector. */
  function CliPolicy(streams: seq<StreamRow>, embed: Value -> Embedding, streamId: Result<string>): (p: Policy)
    ensures forall e :: p.accepts(e) == Accepted(streams, embed, streamId, e)
    ensures forall e :: p.indexes(e) == CliDb.Indexed(embed(e.content))
    ensures p.driver == CliSqlite
  {
    Policy((e: Entry) => Accepted(streams, embed, streamId, e), (e: Entry) => CliDb.Indexed(embed(e.content)), CliSqlite)
  }

  /** The HTTP MCP server: its store, its session table (a module-level
      `Map` in the code), and `crypto.randomUUID` as the `n`-th answer of
      `uuid`. */
  class McpHttp {
    const db: CliDb.DbService
    const uuid: nat -> string
    var draws: nat
    var transports: map<string, SseTransport>

    ghost predicate Drawn(id: string)
      reads this
    {
      exists k :: 0 <= k < draws && uuid(k) == id
    }

    /** Session ids are drawn, distinct, and each names its transport. */
    ghost predicate Sessions()
      reads this, transports.Values
    {
      && Injective(uuid)
      && (forall id :: id in transports ==> Drawn(id))
      && (forall id :: id in transports ==> transports[id].sessionId == id && transports[id].Valid())
    }

    ghost predicate Valid()
      reads this, db, db.db, transports.Values
    {
      db.db.Valid() && Sessions()
    }

    constructor (db: CliDb.DbService, uuid: nat -> string)
      requires db.db.Valid() && Injective(uuid)
      ensures Valid() && this.db == db && this.uuid == uuid && transports == map[]
    {
      this.db := db;
      this.uuid := uuid;
      draws := 0;
      transports := map[];
    }

    /** `GET /mcp`: a fresh session id, a transport registered under it,
        and the endpoint event as its first frame. */
    method OpenSession() returns (id: string, t: SseTransport)
      requires Valid()
      modifies this`draws, this`transports
      ensures Valid() && fresh(t)
      ensures id !in old(transports) && transports == old(transports)[id := t]
      ensures t.sessionId == id && t.open && t.frames == [EndpointEvent(id)] && t.inbox == []
    {
      id := uuid(draws);
      assert forall k :: 0 <= k < draws ==> uuid(k) != id;
      draws := draws + 1;
      t := new SseTransport(id, EndpointEvent(id));
      transports := transports[id := t];
    }

    /** The stream's `cancel`: the session's transport is closed and the
        session forgotten. */
    method CancelSession(id: string)
      requires Valid()
      modifies this`transports, if id in transports then {transports[id]} else {}
      ensures Valid()
      ensures transports == old(transports) - {id}
      ensures id in old(transports) ==> var t := old(transports)[id];
                && !t.open && t.controllerCloses == 1 && t.closeNotices == old(t.closeNotices) + 1
    {
      if id in transports {
        var t := transports[id];
        t.Close();
      }
      transports := transports - {id};
    }

    /** `POST /messages?sessionId=…`: 404 for a missing or unknown session,
        500 when the body is not JSON (`None`), else the message goes to
        the session's transport and the answer is 202. */
    method PostMessage(sessionId: Option<string>, body: Option<Value>) returns (res: Reply)
      requires Valid()
      modifies if sessionId.Some? && sessionId.value in transports then {transports[sessionId.value]} else {}
      ensures Valid()
      ensures sessionId.None? || sessionId.value == "" || sessionId.value !in transports ==>
                res == Text(404, "Session not found")
      ensures sessionId.Some? && sessionId.value != "" && sessionId.value in transports ==>
                var t := transports[sessionId.value];
                && (body.None? ==> res == Text(500, "Error") && t.inbox == old(t.inbox))
                && (body.Some? ==> res == Text(202, "Accepted") && t.inbox == old(t.inbox) + [body.value])
    {
      if sessionId.None? || sessionId.value == "" || sessionId.value !in transports {
        return Text(404, "Session not found");
      }
      var t := transports[sessionId.value];
      if body.None? {
        return Text(500, "Error");
      }
      t.HandlePostMessage(body.value);
      return Text(202, "Accepted");
    }

    /** The request handler of `startMcpServerHttp`: `/mcp` opens a
        session, `/messages` posts to one, the rest go to the store. */
    method Handle(httpMethod: string, pathname: string, query: Option<string>, body: Option<Value>)
      returns (res: Reply)
      requires Valid()
      modifies this`draws, this`transports
      modifies db.db`config, db.db`streams, db.db`logs, db.db`vectors, db.db`draws
      modifies if query.Some? && query.value in transports then {transports[query.value]} else {}
      ensures Valid()
      ensures httpMethod == "OPTIONS" ==> res == Text(204, "")
      ensures RouteOf(httpMethod, pathname) == SessionRoute ==>
                && res.EventStream? && res.sessionId !in old(transports) && res.sessionId in transports
                && transports[res.sessionId].frames == [EndpointEvent(res.sessionId)]
      ensures RouteOf(httpMethod, pathname) != SessionRoute ==> transports == old(transports)
      ensures RouteOf(httpMethod, pathname) == NotFound ==> res == Text(404, "Not Found")
      ensures RouteOf(httpMethod, pathname) == ProjectsRoute ==> res == ProjectList(db.ListProjects())
      ensures RouteOf(httpMethod, pathname) == StreamsRoute && httpMethod == "GET" && (query.None? || query.value == "") ==>
                res == Text(404, "Not Found")
      ensures RouteOf(httpMethod, pathname) == MessagesRoute && (query.None? || query.value !in old(transports)) ==>
                res == Text(404, "Session not found")
    {
      var route := RouteOf(httpMethod, pathname);
      if route == SessionRoute {
        var id, _ := OpenSession();
        res := EventStream(id);
      } else if route == MessagesRoute {
        res := PostMessage(query, body);
      } else {
        ghost var sessions := transports;
        res := Serve(db, httpMethod, pathname, query, body);
        assert transports == sessions && Sessions();
      }
    }
  }

  // ---------------------------------------------------------------------
  // Handlers over the store

  /** `ListResources`: one resource per project. */
  function ListResources(db: CliDb.DbService): (r: seq<Resource>)
    reads db, db.db
    ensures |r| == |db.ListProjects()|
  {
    Resources(db.ListProjects())
  }

  /** `ReadResource`: `pathname` is what `new URL(uri)` gives, `None` when
      the URI does not parse (a TypeError whose message Deno writes as
      `Invalid URL: '<uri>'`, answered as `InternalError`). Only
      project URIs are known, else `InvalidRequest`; a path without an id
      lists no streams. */
  function ReadResource(db: CliDb.DbService, uri: string, pathname: Option<string>): (r: Answer<seq<Stream>>)
    reads db, db.db
    ensures pathname.None? ==> r.Refused? && r.error.code == InternalError
    ensures pathname.Some? && !StartsWith(uri, ProjectScheme) ==> r == Refused(McpError(InvalidRequest, "Unknown resource"))
    ensures pathname.Some? && StartsWith(uri, ProjectScheme) ==>
              r == Answer(match ResourceId(pathname.value) case None => [] case Some(id) => db.ListStreams(id))
  {
    match pathname
    case None => Refused(McpError(InternalError, "Invalid URL: '" + uri + "'"))
    case Some(path) =>
      var id := ResourceId(path);
      if StartsWith(uri, ProjectScheme) then
        Answer(match id case None => [] case Some(i) => db.ListStreams(i))
      else Refused(McpError(InvalidRequest, "Unknown resource"))
  }

  /** Reading a listed resource gives the streams of its project: the
      URI's path is "/" followed by the project id. */
  lemma {:induction false} ListedResourceReads(db: CliDb.DbService, i: int)
    requires 0 <= i < |ListResources(db)|
    requires '/' !in db.ListProjects()[i].project.id
    ensures var p := db.ListProjects()[i].project;
            ReadResource(db, ListResources(db)[i].uri, Some("/" + p.id)) == Answer(db.ListStreams(p.id))
  {
    var p := db.ListProjects()[i].project;
    var uri := ListResources(db)[i].uri;
    assert uri == ProjectScheme + p.id;
    assert uri[..|ProjectScheme|] == ProjectScheme;
    ResourceIdOfPath(p.id);
  }

  /** `CallTool`: the arguments default to `{}`; a missing required
      argument is `InvalidParams`, an unknown tool `MethodNotFound`, and
      an error thrown by the store `InternalError`. The `query_logs` limit
      binds as SQLite reads a LIMIT: a number, or text that reads as an
      integer. */
  method CallTool(db: CliDb.DbService, name: string, arguments: Value) returns (r: Answer<ToolOutput>)
    requires db.db.Valid()
    modifies db.db`projects, db.db`streams, db.db`logs, db.db`draws
    ensures db.db.Valid()
    ensures ToolOf(name).None? ==> r == Refused(McpError(MethodNotFound, "Unknown tool")) && unchanged(db.db)
    ensures var args := Or(arguments, Obj([]));
      && (ToolOf(name) == Some(ListProjectsTool) ==>
            r == Answer(Projects(db.ListProjects())) && unchanged(db.db))
      && (ToolOf(name) == Some(CreateProject) ==>
            && (!Truthy(Field(args, "name")) ==>
                  r == Refused(McpError(InvalidParams, "Name is required")) && unchanged(db.db))
            && (Truthy(Field(args, "name")) ==>
                  var text := BindText(Field(args, "name"), "projects.name", CliSqlite);
                  && (text.Err? ==> r == Refused(McpError(InternalError, text.error)) && unchanged(db.db))
                  && (text.Ok? ==>
                        && r.Answer? && r.value.Created? && r.value.project.name == text.value
                        && db.db.projects == old(db.db.projects) + [r.value.project])))
      && (ToolOf(name) == Some(DeleteProject) || ToolOf(name) == Some(DeleteStream) ==>
            !Truthy(Field(args, "id")) ==> r == Refused(McpError(InvalidParams, "ID is required")) && unchanged(db.db))
      && (ToolOf(name) == Some(DeleteProject) && Truthy(Field(args, "id")) ==>
            var id := BindText(Field(args, "id"), "projects.id", CliSqlite);
            && (id.Err? ==> r == Refused(McpError(InternalError, id.error)) && unchanged(db.db))
            && (id.Ok? ==> r == Answer(Message("Project deleted"))
                           && db.db.State() == ProjectDeleted(old(db.db.State()), id.value)))
      && (ToolOf(name) == Some(DeleteStream) && Truthy(Field(args, "id")) ==>
            var id := BindText(Field(args, "id"), "data_streams.id", CliSqlite);
            && (id.Err? ==> r == Refused(McpError(InternalError, id.error)) && unchanged(db.db))
            && (id.Ok? ==> r == Answer(Message("Stream deleted"))
                           && db.db.State() == StreamDeleted(old(db.db.State()), id.value)))
      && (ToolOf(name) == Some(QueryLogs) ==>
            && unchanged(db.db)
            && (!Truthy(Field(args, "streamId")) ==> r == Refused(McpError(InvalidParams, "Stream ID is required")))
            && (Truthy(Field(args, "streamId")) && Searching(args) ==>
                  r == match db.SearchLogs(Field(args, "query"))
                       case Ok(found) => Answer(Neighbours(found))
                       case Err(e) => Refused(McpError(InternalError, e)))
            && (Truthy(Field(args, "streamId")) && !Searching(args) ==>
                  var sid := BindText(Field(args, "streamId"), "logs.stream_id", CliSqlite);
                  var limit := BindInteger(QueryLimit(args));
                  r == if sid.Err? then Refused(McpError(InternalError, sid.error))
                       else if limit.Err? then Refused(McpError(InternalError, limit.error))
                       else Answer(Logs(db.GetRecentLogs(sid.value, limit.value)))))
    ensures r.Refused? ==> r.error.code in {MethodNotFound, InvalidParams, InternalError}
  {
    var args := Or(arguments, Obj([]));
    var tool := ToolOf(name);
    if tool.None? {
      return Refused(McpError(MethodNotFound, "Unknown tool"));
    }
    match tool.value
    case ListProjectsTool =>
      return Answer(Projects(db.ListProjects()));
    case CreateProject =>
      var nameArg := Field(args, "name");
      if !Truthy(nameArg) {
        return Refused(McpError(InvalidParams, "Name is required"));
      }
      var text := BindText(nameArg, "projects.name", CliSqlite);
      if text.Err? {
        return Refused(McpError(InternalError, text.error));
      }
      var project := db.CreateProject(text.value);
      return Answer(Created(project.value));
    case DeleteProject =>
      var idArg := Field(args, "id");
      if !Truthy(idArg) {
        return Refused(McpError(InvalidParams, "ID is required"));
      }
      var id := BindText(idArg, "projects.id", CliSqlite);
      if id.Err? {
        return Refused(McpError(InternalError, id.error));
      }
      var _ := db.DeleteProject(id.value);
      return Answer(Message("Project deleted"));
    case DeleteStream =>
      var idArg := Field(args, "id");
      if !Truthy(idArg) {
        return Refused(McpError(InvalidParams, "ID is required"));
      }
      var id := BindText(idArg, "data_streams.id", CliSqlite);
      if id.Err? {
        return Refused(McpError(InternalError, id.error));
      }
      var _ := db.DeleteStream(id.value);
      return Answer(Message("Stream deleted"));
    case QueryLogs =>
      var streamId := Field(args, "streamId");
      if !Truthy(streamId) {
        return Refused(McpError(InvalidParams, "Stream ID is required"));
      }
      if Searching(args) {
        var found := db.SearchLogs(Field(args, "query"));
        if found.Err? {
          return Refused(McpError(InternalError, found.error));
        }
        return Answer(Neighbours(found.value));
      }
      var sid := BindText(streamId, "logs.stream_id", CliSqlite);
      if sid.Err? {
        return Refused(McpError(InternalError, sid.error));
      }
      var limit := BindInteger(QueryLimit(args));
      if limit.Err? {
        return Refused(McpError(InternalError, limit.error));
      }
      return Answer(Logs(db.GetRecentLogs(sid.value, limit.value)));
  }

  /** `query_logs` with a `limit` of numeric text reads it as the number:
      SQLite gives a text LIMIT operand numeric affinity. */
  lemma {:induction false} QueryLimitOfText(n: int)
    ensures var args := Obj([Member("limit", Str(IntToString(n)))]);
            BindInteger(QueryLimit(args)) == Ok(n)
  {
    var args := Obj([Member("limit", Str(IntToString(n)))]);
    assert Field(args, "limit") == Str(IntToString(n));
    BindIntegerOfText(n);
  }

  /** Under the command-line store's policy, the next entry of a run that
      has stored `kept` is stored exactly when `addLog` takes it now: it
      is accepted and, when it gets a vector, the next rowid is free. */
  lemma {:induction false} CliStoredAt(t: Snapshot, embed: Value -> Embedding, streamId: Result<string>, e: Entry,
                                       logs: seq<LogRow>, vectors: set<nat>, kept: seq<Entry>)
    requires Progressed(t, logs, vectors, streamId, kept, CliSqlite)
    ensures StoredAt(t, CliPolicy(t.streams, embed, streamId), e, |kept|) <==>
      && Accepted(t.streams, embed, streamId, e)
      && (CliDb.Indexed(embed(e.content)) ==> NextRowid(logs) !in vectors)
  {
    ProgressedAhead(t, logs, vectors, streamId, kept, 0, CliSqlite);
  }

  /** What the command-line `addLog` did for the next entry of a run that
      has stored `kept`, read as the run's progress: it took the entry
      exactly when the run's policy stores it there, and then the run has
      stored one more entry. */
  lemma {:induction false} CliAddedOne(t: Snapshot, embed: Value -> Embedding, streamId: Result<string>, e: Entry,
                                       logs: seq<LogRow>, vectors: set<nat>, logs': seq<LogRow>, vectors': set<nat>,
                                       kept: seq<Entry>, took: bool)
    requires streamId.Ok? && !e.metadata.Undefined?
    requires Progressed(t, logs, vectors, streamId, kept, CliSqlite)
    requires took <==> && streamId.value in StreamIds(t.streams)
                       && BindText(e.content, "logs.content", CliSqlite).Ok?
                       && (CliDb.Indexed(embed(e.content)) ==>
                             embed(e.content).length == VectorDimensions && NextRowid(logs) !in vectors)
    requires took ==>
      && |logs'| == |logs| + 1 && logs'[..|logs|] == logs && NextRowid(logs') == NextRowid(logs) + 1
      && logs'[|logs|].streamId == streamId.value
      && logs'[|logs|].content == BindText(e.content, "logs.content", CliSqlite).value
      && logs'[|logs|].metadata == Stored(e.metadata)
      && logs'[|logs|].rowid == NextRowid(logs)
      && vectors' == if CliDb.Indexed(embed(e.content)) then vectors + {logs'[|logs|].rowid} else vectors
    ensures took <==> StoredAt(t, CliPolicy(t.streams, embed, streamId), e, |kept|)
    ensures took ==> Progressed(t, logs', vectors', streamId, kept + [e], CliSqlite)
  {
    CliStoredAt(t, embed, streamId, e, logs, vectors, kept);
    if took {
      assert Matches(logs'[|logs|], streamId, e, CliSqlite);
      ProgressedOne(t, logs, vectors, logs', vectors', streamId, kept, e, CliSqlite);
    }
  }

  /** `await db.addLog(streamId, content, metadata)` for one entry with
      content, in a run from the store `t` that has stored `kept`: it is
      stored exactly when the run's policy lets it take its place, as the
      next row; otherwise nothing changes. */
  method StoreEntry(db: CliDb.DbService, streamId: Result<string>, e: Entry, ghost t: Snapshot, ghost kept: seq<Entry>)
    returns (r: Result<()>)
    requires db.db.Valid() && !e.metadata.Undefined? && db.db.streams == t.streams
    requires Progressed(t, db.db.logs, db.db.vectors, streamId, kept, CliSqlite)
    modifies db.db`config, db.db`logs, db.db`vectors, db.db`draws
    ensures db.db.Valid() && db.db.streams == old(db.db.streams) && db.db.projects == old(db.db.projects)
    ensures r.Ok? <==> StoredAt(t, CliPolicy(t.streams, db.embed, streamId), e, |kept|)
    ensures r.Ok? ==> Progressed(t, db.db.logs, db.db.vectors, streamId, kept + [e], CliSqlite)
    ensures r.Err? ==> db.db.logs == old(db.db.logs) && db.db.vectors == old(db.db.vectors)
  {
    if streamId.Err? {
      return Err(streamId.error);
    }
    ghost var logs, vectors := db.db.logs, db.db.vectors;
    var added := db.AddLog(streamId.value, e.content, e.metadata);
    CliAddedOne(t, db.embed, streamId, e, logs, vectors, db.db.logs, db.db.vectors, kept, added.Ok?);
    return if added.Ok? then Ok(()) else Err(added.error);
  }

  /** One pass of the loop of `handleIngest`: entry `i` normalised and,
      when it has content, stored. It goes on exactly when the run so far
      extends to entry `i`; otherwise the loop stops there. */
  method StoreNext(db: CliDb.DbService, streamId: Result<string>, entries: seq<Value>, i: nat,
                   ghost t: Snapshot, ghost p: Policy)
    returns (r: Result<()>)
    requires db.db.Valid() && i < |entries| && db.db.streams == t.streams
    requires p == CliPolicy(t.streams, db.embed, streamId)
    requires Normalise(entries[..i]).Ok? && AllStored(t, p, Normalise(entries[..i]).value)
    requires Progressed(t, db.db.logs, db.db.vectors, streamId, Normalise(entries[..i]).value, CliSqlite)
    modifies db.db`config, db.db`logs, db.db`vectors, db.db`draws
    ensures db.db.Valid() && db.db.streams == old(db.db.streams) && db.db.projects == old(db.db.projects)
    ensures r.Ok? ==> && Normalise(entries[..i + 1]).Ok?
                      && AllStored(t, p, Normalise(entries[..i + 1]).value)
                      && Progressed(t, db.db.logs, db.db.vectors, streamId, Normalise(entries[..i + 1]).value, CliSqlite)
    ensures r.Err? ==> HaltedAt(t, p, streamId, entries, db.db.logs, i)
  {
    ghost var kept := Normalise(entries[..i]).value;
    var entry := Normalised(entries[i]);
    assert entries[..i + 1][..i] == entries[..i] && entries[..i + 1][i] == entries[i];
    if entry.Err? {
      return Err(entry.error);
    }
    if !Truthy(entry.value.content) {
      assert Normalise(entries[..i + 1]) == Ok(kept);
      return Ok(());
    }
    assert Normalise(entries[..i + 1]) == Ok(kept + [entry.value]);
    r := StoreEntry(db, streamId, entry.value, t, kept);
    if r.Ok? {
      AllStoredSnoc(t, p, kept, entry.value);
    }
  }

  /** The loop of `handleIngest`, as in the server's `/api/ingest` but
      over the command-line store, whose `addLog` also refuses an
      embedding of the wrong length. It completes exactly when no entry is
      `null` and the store takes every kept entry in turn; when it stops,
      the entries before the one it stopped at stay stored. */
  method StoreEntries(db: CliDb.DbService, streamId: Result<string>, entries: seq<Value>) returns (r: Result<()>)
    requires db.db.Valid()
    modifies db.db`config, db.db`logs, db.db`vectors, db.db`draws
    ensures db.db.Valid() && db.db.streams == old(db.db.streams) && db.db.projects == old(db.db.projects)
    ensures var p := CliPolicy(old(db.db.streams), db.embed, streamId);
      && (r.Ok? <==> Normalise(entries).Ok? && AllStored(old(db.db.State()), p, Normalise(entries).value))
      && (r.Ok? ==> Appended(old(db.db.logs), db.db.logs, streamId, Normalise(entries).value, CliSqlite))
      && (r.Err? ==> Halted(old(db.db.State()), p, streamId, entries, db.db.logs))
  {
    ghost var t := db.db.State();
    ghost var p := CliPolicy(t.streams, db.embed, streamId);
    ProgressedNothing(t, streamId, CliSqlite);
    var i := 0;
    while i < |entries|
      invariant 0 <= i <= |entries|
      invariant db.db.Valid() && db.db.streams == t.streams && db.db.projects == old(db.db.projects)
      invariant Normalise(entries[..i]).Ok?
      invariant AllStored(t, p, Normalise(entries[..i]).value)
      invariant Progressed(t, db.db.logs, db.db.vectors, streamId, Normalise(entries[..i]).value, CliSqlite)
    {
      var step := StoreNext(db, streamId, entries, i, t, p);
      if step.Err? {
        HaltedNotAllStored(t, p, streamId, entries, db.db.logs, i);
        return step;
      }
      i := i + 1;
    }
    assert entries[..i] == entries;
    return Ok(());
  }

  /** What `handleIngest` answers, and what it leaves in the store, given
      the store `t` it started from and the rows `after` it left: 405 for
      anything but POST; 500 for a body that is not JSON or is `null`; 400
      without a truthy `streamId` and `logs`; otherwise 200 with the count
      of every entry when the store takes every kept entry in turn, each
      appended in order, and else a 500 after which the entries before the
      one it stopped at stay stored. While no vector sits at or above the
      next rowid, an entry is stored exactly when it is accepted. */
  ghost predicate IngestAnswered(t: Snapshot, embed: Value -> Embedding, after: seq<LogRow>,
                                 httpMethod: string, body: Option<Value>, res: Reply)
  {
    && (httpMethod != "POST" ==> res == Text(405, "Method Not Allowed") && after == t.logs)
    && (httpMethod == "POST" && (body.None? || Nullish(body.value)) ==>
          res.JsonBody? && res.status == 500 && after == t.logs)
    && (httpMethod == "POST" && body.Some? && !Nullish(body.value)
        && !(Truthy(Field(body.value, "streamId")) && Truthy(Field(body.value, "logs"))) ==>
          res == Text(400, "Missing streamId or logs") && after == t.logs)
    && (httpMethod == "POST" && body.Some? && !Nullish(body.value)
        && Truthy(Field(body.value, "streamId")) && Truthy(Field(body.value, "logs")) ==>
          var entries := Entries(Field(body.value, "logs"));
          var sid := BindText(Field(body.value, "streamId"), "logs.stream_id", CliSqlite);
          var p := CliPolicy(t.streams, embed, sid);
          var kept := Normalise(entries);
          && res.JsonBody? && (res.status == 200 || res.status == 500)
          && (res.status == 200 <==> kept.Ok? && AllStored(t, p, kept.value))
          && (NoVectorAhead(t.logs, t.vectors) ==>
                (res.status == 200 <==> kept.Ok? && forall e :: e in kept.value ==> Accepted(t.streams, embed, sid, e)))
          && (res.status == 500 ==> Halted(t, p, sid, entries, after))
          && (res.status == 200 ==>
                && res == JsonBody(200, Obj([Member("success", Bool(true)), Member("count", Num(|entries|))]))
                && Appended(t.logs, after, sid, kept.value, CliSqlite)))
  }

  /** `handleIngest`: each entry is stored as on the server, and the reply
      counts every entry; any exception (a body that is not JSON, a `null`
      body or entry, a refused row) is a 500. */
  method HandleIngest(db: CliDb.DbService, httpMethod: string, body: Option<Value>) returns (res: Reply)
    requires db.db.Valid()
    modifies db.db`config, db.db`logs, db.db`vectors, db.db`draws
    ensures db.db.Valid() && db.db.streams == old(db.db.streams) && db.db.projects == old(db.db.projects)
    ensures IngestAnswered(old(db.db.State()), db.embed, db.db.logs, httpMethod, body, res)
  {
    ghost var t := db.db.State();
    if httpMethod != "POST" {
      return Text(405, "Method Not Allowed");
    }
    if body.None? {
      return JsonBody(500, Obj([Member("error", Str("SyntaxError: Unexpected end of JSON input"))]));
    }
    if Nullish(body.value) {
      return JsonBody(500, Obj([Member("error", Str(DestructureError(body.value, "streamId", "body")))]));
    }
    var streamId, logs := Field(body.value, "streamId"), Field(body.value, "logs");
    if !Truthy(streamId) || !Truthy(logs) {
      return Text(400, "Missing streamId or logs");
    }
    var entries := Entries(logs);
    var sid := BindText(streamId, "logs.stream_id", CliSqlite);
    var kept := Normalise(entries);
    if kept.Ok? && NoVectorAhead(t.logs, t.vectors) {
      AllStoredAccepted(t, CliPolicy(t.streams, db.embed, sid), kept.value);
    }
    var stored := StoreEntries(db, sid, entries);
    if stored.Err? {
      return JsonBody(500, Obj([Member("error", Str(stored.error))]));
    }
    return JsonBody(200, Obj([Member("success", Bool(true)), Member("count", Num(|entries|))]));
  }

  /** `/api/streams`: the project id comes from the query of a GET or
      the JSON body of a POST; with one, the project's streams; without,
      the request falls through to 404. */
  method Streams(db: CliDb.DbService, httpMethod: string, query: Option<string>, body: Option<Value>) returns (res: Reply)
    requires db.db.Valid()
    ensures httpMethod == "GET" && query.Some? && query.value != "" ==> res == StreamList(db.ListStreams(query.value))
    ensures httpMethod == "GET" && (query.None? || query.value == "") ==> res == Text(404, "Not Found")
    ensures httpMethod == "POST" && (body.None? || Nullish(body.value)) ==> res == Crashed
    ensures httpMethod == "POST" && body.Some? && !Nullish(body.value) ==>
              var projectId := Field(body.value, "projectId");
              && (!Truthy(projectId) ==> res == Text(404, "Not Found"))
              && (Truthy(projectId) ==>
                    res == match BindText(projectId, "data_streams.project_id", CliSqlite)
                           case Ok(id) => StreamList(db.ListStreams(id))
                           case Err(_) => Crashed)
    ensures httpMethod != "GET" && httpMethod != "POST" ==> res == Text(404, "Not Found")
  {
    if httpMethod == "GET" {
      if query.Some? && query.value != "" {
        return StreamList(db.ListStreams(query.value));
      }
      return Text(404, "Not Found");
    }
    if httpMethod == "POST" {
      if body.None? || Nullish(body.value) {
        return Crashed;
      }
      var projectId := Field(body.value, "projectId");
      if !Truthy(projectId) {
        return Text(404, "Not Found");
      }
      var id := BindText(projectId, "data_streams.project_id", CliSqlite);
      if id.Err? {
        return Crashed;
      }
      return StreamList(db.ListStreams(id.value));
    }
    return Text(404, "Not Found");
  }

  /** What `POST /api/streams/create` answers, given the project ids and
      streams before and the streams after: a stream with config `{}`
      under the given project id, which may be missing (a NULL project_id,
      which the foreign key lets through); a project id that names no
      project, or a field a column refuses, throws. */
  predicate StreamCreatedFrom(projects: set<string>, before: seq<StreamRow>, after: seq<StreamRow>,
                              body: Option<Value>, res: Reply)
  {
    && (body.None? || Nullish(body.value) ==> res == Crashed && after == before)
    && (body.Some? && !Nullish(body.value) ==>
          var projectId := BindNullable(Field(body.value, "projectId"), CliSqlite);
          && (res.StreamCreated? <==> (&& projectId.Ok?
                                       && (projectId.value.Some? ==> projectId.value.value in projects)
                                       && BindText(Field(body.value, "type"), "data_streams.type", CliSqlite).Ok?
                                       && BindText(Field(body.value, "name"), "data_streams.name", CliSqlite).Ok?))
          && (res.StreamCreated? ==> && res.stream.projectId == projectId.value
                                     && res.stream.kind == BindText(Field(body.value, "type"), "data_streams.type", CliSqlite).value
                                     && res.stream.name == BindText(Field(body.value, "name"), "data_streams.name", CliSqlite).value
                                     && res.stream.config == Parsed(Obj([]))
                                     && res.stream.id !in StreamIds(before)
                                     && |after| == |before| + 1 && after[..|before|] == before
                                     && FindStream(after, res.stream.id).Some?
                                     && res.stream == ParsedStream(FindStream(after, res.stream.id).value))
          && (!res.StreamCreated? ==> res == Crashed && after == before))
  }

  /** `POST /api/streams/create`. */
  method CreateStream(db: CliDb.DbService, body: Option<Value>) returns (res: Reply)
    requires db.db.Valid()
    modifies db.db`streams, db.db`draws
    ensures db.db.Valid()
    ensures StreamCreatedFrom(old(ProjectIds(db.db.projects)), old(db.db.streams), db.db.streams, body, res)
  {
    if body.None? || Nullish(body.value) {
      return Crashed;
    }
    var projectId := BindNullable(Field(body.value, "projectId"), CliSqlite);
    var kind := BindText(Field(body.value, "type"), "data_streams.type", CliSqlite);
    var name := BindText(Field(body.value, "name"), "data_streams.name", CliSqlite);
    if projectId.Err? || kind.Err? || name.Err? {
      return Crashed;
    }
    assert Plain(Obj([]));
    var created := db.CreateStream(projectId.value, kind.value, name.value, Obj([]));
    if created.Err? {
      return Crashed;
    }
    return StreamCreated(created.value);
  }

  /** The routes of `startMcpServerHttp` that only use the store. */
  method Serve(db: CliDb.DbService, httpMethod: string, pathname: string, query: Option<string>, body: Option<Value>)
    returns (res: Reply)
    requires db.db.Valid()
    requires RouteOf(httpMethod, pathname) != SessionRoute && RouteOf(httpMethod, pathname) != MessagesRoute
    modifies db.db`config, db.db`streams, db.db`logs, db.db`vectors, db.db`draws
    ensures db.db.Valid()
    ensures httpMethod == "OPTIONS" ==> res == Text(204, "") && unchanged(db.db)
    ensures RouteOf(httpMethod, pathname) == NotFound ==> res == Text(404, "Not Found") && unchanged(db.db)
    ensures RouteOf(httpMethod, pathname) == ProjectsRoute ==> res == ProjectList(db.ListProjects()) && unchanged(db.db)
    ensures RouteOf(httpMethod, pathname) == StreamsRoute && httpMethod == "GET" ==>
              res == (if query.Some? && query.value != "" then StreamList(db.ListStreams(query.value)) else Text(404, "Not Found"))
    ensures RouteOf(httpMethod, pathname) == StreamsRoute ==>
              && unchanged(db.db)
              && (httpMethod == "POST" && (body.None? || Nullish(body.value)) ==> res == Crashed)
              && (httpMethod == "POST" && body.Some? && !Nullish(body.value) ==>
                    var projectId := Field(body.value, "projectId");
                    && (!Truthy(projectId) ==> res == Text(404, "Not Found"))
                    && (Truthy(projectId) ==>
                          res == match BindText(projectId, "data_streams.project_id", CliSqlite)
                                 case Ok(id) => StreamList(db.ListStreams(id))
                                 case Err(_) => Crashed))
              && (httpMethod != "GET" && httpMethod != "POST" ==> res == Text(404, "Not Found"))
    ensures RouteOf(httpMethod, pathname) == IngestRoute ==>
              && IngestAnswered(old(db.db.State()), db.embed, db.db.logs, httpMethod, body, res)
              && db.db.streams == old(db.db.streams) && db.db.projects == old(db.db.projects)
    ensures RouteOf(httpMethod, pathname) == CreateStreamRoute ==>
              && StreamCreatedFrom(old(ProjectIds(db.db.projects)), old(db.db.streams), db.db.streams, body, res)
              && db.db.logs == old(db.db.logs) && db.db.vectors == old(db.db.vectors)
  {
    match RouteOf(httpMethod, pathname)
    case Preflight =>
      return Text(204, "");
    case IngestRoute =>
      res := HandleIngest(db, httpMethod, body);
    case ProjectsRoute =>
      return ProjectList(db.ListProjects());
    case StreamsRoute =>
      res := Streams(db, httpMethod, query, body);
    case CreateStreamRoute =>
      res := CreateStream(db, body);
    case NotFound =>
      return Text(404, "Not Found");
  }
}
