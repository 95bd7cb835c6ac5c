/** The stand-alone MCP server of packages/mcp/src/main.ts, a client of the
    HTTP API: each tool or resource becomes a request to `API_URL` + path.
    `fetch` is an oracle from URL to response; `encodeURIComponent` is the
    oracle `encode`. */
module McpClient {
  import opened Wrappers
  import opened Strings
  import opened Json

  const DefaultApiUrl := "http://localhost:4567/api"

  /** `process.env.LOGHEAD_API_URL || "http://localhost:4567/api"`. */
  function ApiUrl(env: Option<string>): (r: string)
    ensures env.Some? && env.value != "" ==> r == env.value
    ensures env.None? || env.value == "" ==> r == DefaultApiUrl
  {
    if env.Some? && env.value != "" then env.value else DefaultApiUrl
  }

  /** What `fetch` gives: a rejected promise with what `String(error)`
      shows, or a response whose body parses as JSON (`Some`) or not. */
  datatype Response = Unreachable(error: string)
                    | Response(ok: bool, status: nat, statusText: string, body: Option<Value>)

  /** `fetchApi(path)`: the response's JSON when it is ok; otherwise the
      text of what it throws. */
  function FetchApi(fetch: string -> Response, apiUrl: string, path: string): (r: Result<Value>)
    ensures var res := fetch(apiUrl + path);
      && (r.Ok? <==> res.Response? && res.ok && res.body.Some?)
      && (r.Ok? ==> r.value == res.body.value)
      && (res.Response? && !res.ok ==>
            r == Err("Error: API Error " + NatToString(res.status) + ": " + res.statusText))
  {
    match fetch(apiUrl + path)
    case Unreachable(e) => Err(e)
    case Response(ok, status, statusText, body) =>
      if !ok then Err("Error: API Error " + NatToString(status) + ": " + statusText)
      else if body.None? then Err("SyntaxError: Unexpected token in JSON")
      else Ok(body.value)
  }

  /** What a tool answers: the data it turns into JSON text, or an
      `isError` text. Tool failures are answers, never thrown. */
  datatype ToolResult = Data(value: Value) | Failure(text: string)

  /** `Error: ${error}`, the text of a failed tool. */
  function ErrorText(error: string): (r: ToolResult)
    ensures r.Failure? && StartsWith(r.text, "Error: ")
  {
    var text := "Error: " + error;
    assert text[..|"Error: "|] == "Error: ";
    Failure(text)
  }

  // ---------------------------------------------------------------------
  // Resources

  const ResourcePrefix := "loghead://project/"

  /** `uri.href.split("/").pop()`. */
  function ResourceId(href: string): (r: string)
    ensures '/' !in r && EndsWith(href, r)
    ensures |r| < |href| ==> href[|href| - |r| - 1] == '/'
  {
    LastPiece(href, '/')
  }

  /** The id of `loghead://project/{id}` is the `{id}` itself. */
  lemma {:induction false} ResourceIdOfProject(id: string)
    requires '/' !in id
    ensures ResourceId(ResourcePrefix + id) == id
  {
    assert ResourcePrefix + id == "loghead://project" + ['/'] + id;
    LastPieceAfter("loghead://project", id, '/');
  }

  /** The text after a separator, when it holds none, is the last piece. */
  lemma {:induction false} LastPieceAfter(a: string, b: string, sep: char)
    requires sep !in b
    ensures LastPiece(a + [sep] + b, sep) == b
    decreases |b|
  {
    var s := a + [sep] + b;
    if b != [] {
      var init := b[..|b| - 1];
      assert s[..|s| - 1] == a + [sep] + init;
      assert s[|s| - 1] == b[|b| - 1];
      LastPieceAfter(a, init, sep);
      assert init + [b[|b| - 1]] == b;
    }
  }

  function StreamsPath(projectId: string): string {
    "/streams?projectId=" + projectId
  }

  /** The `project` resource: the streams of the project the URI names; a
      failure is rethrown with its cause. */
  function ReadProject(fetch: string -> Response, apiUrl: string, href: string): (r: Result<Value>)
    ensures r.Ok? <==> FetchApi(fetch, apiUrl, StreamsPath(ResourceId(href))).Ok?
    ensures r.Ok? ==> r == FetchApi(fetch, apiUrl, StreamsPath(ResourceId(href)))
  {
    match FetchApi(fetch, apiUrl, StreamsPath(ResourceId(href)))
    case Ok(streams) => Ok(streams)
    case Err(e) => Err("Failed to fetch project streams: " + e)
  }

  /** Reading `loghead://project/{id}` asks for the streams of `{id}`. */
  lemma {:induction false} ReadProjectAsksForItsStreams(fetch: string -> Response, apiUrl: string, id: string)
    requires '/' !in id
    ensures ReadProject(fetch, apiUrl, ResourcePrefix + id).Ok?
            <==> FetchApi(fetch, apiUrl, "/streams?projectId=" + id).Ok?
  {
    ResourceIdOfProject(id);
  }

  // ---------------------------------------------------------------------
  // Tools

  /** The members `{ ...v }` copies: an object's own, a string's or an
      array's elements under their indices, none for anything else. */
  function Spread(v: Value): (r: seq<Member>)
    ensures v.Obj? ==> r == v.members
  {
    match v
    case Obj(ms) => ms
    case Arr(items) => seq(|items|, i requires 0 <= i < |items| => Member(NatToString(i), items[i]))
    case Str(s) => seq(|s|, i requires 0 <= i < |s| => Member(NatToString(i), Str([s[i]])))
    case _ => []
  }

  /** One project of `list_projects`: `{ ...p, streams }` when its streams
      could be fetched, `p` itself when that failed (including reading the
      `id` of a `null` project). */
  function WithStreams(fetch: string -> Response, apiUrl: string, p: Value): Value {
    if Nullish(p) then p
    else
      match FetchApi(fetch, apiUrl, StreamsPath(ToStr(Field(p, "id"))))
      case Err(_) => p
      case Ok(streams) => Obj(Set(Spread(p), "streams", streams))
  }

  /** `list_projects`: the projects in order, each with its streams
      attached; `Error: …` when the project list cannot be fetched or is
      not an array. */
  function ListProjects(fetch: string -> Response, apiUrl: string): (r: ToolResult)
    ensures r.Failure? <==> FetchApi(fetch, apiUrl, "/projects").Err? || !FetchApi(fetch, apiUrl, "/projects").value.Arr?
    ensures r.Failure? ==> StartsWith(r.text, "Error: ")
    ensures FetchApi(fetch, apiUrl, "/projects") == Ok(Null) ==>
              r == ErrorText(ReadError(Null, "map"))
    ensures FetchApi(fetch, apiUrl, "/projects").Ok? && !Nullish(FetchApi(fetch, apiUrl, "/projects").value)
            && !FetchApi(fetch, apiUrl, "/projects").value.Arr? ==>
              r == ErrorText("TypeError: projects.map is not a function")
    ensures r.Data? ==> r.value.Arr? && |r.value.items| == |FetchApi(fetch, apiUrl, "/projects").value.items|
  {
    match FetchApi(fetch, apiUrl, "/projects")
    case Err(e) => ErrorText(e)
    case Ok(projects) =>
      if Nullish(projects) then ErrorText(ReadError(projects, "map"))
      else if !projects.Arr? then ErrorText("TypeError: projects.map is not a function")
      else
        var ps := projects.items;
        Data(Arr(seq(|ps|, i requires 0 <= i < |ps| => WithStreams(fetch, apiUrl, ps[i]))))
  }

  /** Each listed project keeps its place and its fields, and gains
      `streams` exactly when they could be fetched. */
  lemma {:induction false} ListedProject(fetch: string -> Response, apiUrl: string, i: int, k: string)
    requires ListProjects(fetch, apiUrl).Data?
    requires 0 <= i < |ListProjects(fetch, apiUrl).value.items|
    ensures var p := FetchApi(fetch, apiUrl, "/projects").value.items[i];
            var q := ListProjects(fetch, apiUrl).value.items[i];
            var streams := FetchApi(fetch, apiUrl, StreamsPath(ToStr(Field(p, "id"))));
            && (Nullish(p) || streams.Err? ==> q == p)
            && (p.Obj? && streams.Ok? ==>
                  Field(q, "streams") == streams.value && (k != "streams" ==> Field(q, k) == Field(p, k)))
  {
    var p := FetchApi(fetch, apiUrl, "/projects").value.items[i];
    var streams := FetchApi(fetch, apiUrl, StreamsPath(ToStr(Field(p, "id"))));
    if p.Obj? && streams.Ok? {
      SetGet(p.members, "streams", streams.value, k);
      SetGet(p.members, "streams", streams.value, "streams");
    }
  }

  const DefaultQueryLimit := 20

  /** The path of `query_logs`: stream and limit (default 20), and `&q=`
      with the encoded query only when there is a non-empty one. */
  function QueryPath(encode: string -> string, streamId: string, query: Option<string>, limit: Option<int>)
    : (r: string)
    ensures var p := "/logs?streamId=" + streamId + "&limit=";
            var l := IntToString(if limit.Some? then limit.value else DefaultQueryLimit);
            && |p + l| <= |r| && r[..|p + l|] == p + l
            && (query.Some? && query.value != "" ==> r == p + l + "&q=" + encode(query.value))
            && (!(query.Some? && query.value != "") ==> r == p + l)
  {
    var base := "/logs?streamId=" + streamId + "&limit=" + IntToString(if limit.Some? then limit.value else DefaultQueryLimit);
    if query.Some? && query.value != "" then
      var r := base + "&q=" + encode(query.value);
      assert r[..|base|] == base;
      r
    else base
  }

  /** The API reads back the limit the path asks for: the text after
      `&limit=`, up to the next `&`, parses to it (twenty by default). */
  lemma {:induction false} QueryPathLimit(encode: string -> string, streamId: string, query: Option<string>, limit: Option<int>)
    ensures var p := "/logs?streamId=" + streamId + "&limit=";
            var r := QueryPath(encode, streamId, query, limit);
            && |p| <= |r|
            && ParseInt(Str(Split(r[|p|..], '&')[0])) == Num(if limit.Some? then limit.value else DefaultQueryLimit)
  {
    var p := "/logs?streamId=" + streamId + "&limit=";
    var n := if limit.Some? then limit.value else DefaultQueryLimit;
    var l := IntToString(n);
    var r := QueryPath(encode, streamId, query, limit);
    IntToStringWithout(n, '&');
    if query.Some? && query.value != "" {
      var rest := "q=" + encode(query.value);
      assert r[|p|..] == l + ['&'] + rest;
      SplitFirst(l, rest, '&');
    } else {
      assert r[|p|..] == l;
      SplitWithout(l, '&');
    }
    ParseIntOfIntToString(n);
  }

  /** An integer's text holds nothing but a sign and digits. */
  lemma {:induction false} IntToStringWithout(n: int, c: char)
    requires c != '-' && !('0' <= c <= '9')
    ensures c !in IntToString(n)
  {
    var ds := NatToString(if n < 0 then -n else n);
    forall i | 0 <= i < |ds| ensures ds[i] != c {
      assert '0' <= ds[i] <= '9';
    }
    assert IntToString(n) == (if n < 0 then "-" + ds else ds);
  }

  /** Without a query or a limit, the twenty most recent logs. */
  lemma {:induction false} QueryPathDefaults(encode: string -> string, streamId: string)
    ensures QueryPath(encode, streamId, None, None) == "/logs?streamId=" + streamId + "&limit=20"
    ensures QueryPath(encode, streamId, Some(""), None) == QueryPath(encode, streamId, None, None)
  {
    assert IntToString(DefaultQueryLimit) == "20" by {
      assert NatToString(2) == "2";
      assert NatToString(20) == NatToString(2) + [DigitChar(0)];
    }
  }

  /** `query_logs`: the logs the API answers, or `Error: …`. */
  function QueryLogs(fetch: string -> Response, apiUrl: string, encode: string -> string,
                     streamId: string, query: Option<string>, limit: Option<int>): (r: ToolResult)
    ensures var fetched := FetchApi(fetch, apiUrl, QueryPath(encode, streamId, query, limit));
      && (r.Data? <==> fetched.Ok?)
      && (r.Data? ==> r.value == fetched.value)
      && (r.Failure? ==> r.text == "Error: " + fetched.error)
  {
    match FetchApi(fetch, apiUrl, QueryPath(encode, streamId, query, limit))
    case Ok(logs) => Data(logs)
    case Err(e) => ErrorText(e)
  }
}
