/** The content script of the browser extension
    (packages/browser/content.js): it asks for injection when the stored
    settings allow it, and turns each console message the injected page
    script posts into an ingest request for the background worker to send.
    Storage, window messages and `chrome.runtime.sendMessage` are values
    here: the settings and the message data are parameters, and the
    request is the result. */
module BrowserContent {
  import opened Wrappers
  import opened Strings
  import opened Json
  import opened Ingest

  /** What `chrome.storage.local.get` gives for the four keys; a key never
      stored is `Undefined`. */
  datatype Settings = Settings(serverUrl: Value, streamId: Value, enabled: Value, token: Value)

  /** The gate before `injectScript`: only an explicit `false` disables,
      and both the stream and the server must be set. */
  predicate Injects(config: Settings) {
    !StrictEquals(config.enabled, Bool(false)) && Truthy(config.streamId) && Truthy(config.serverUrl)
  }

  /** Settings never stored count as enabled; with no stream or no server
      nothing is injected, whatever `enabled` says. */
  lemma {:induction false} InjectsByDefault(serverUrl: Value, streamId: Value, enabled: Value, token: Value)
    ensures Injects(Settings(serverUrl, streamId, Undefined, token)) <==> Truthy(serverUrl) && Truthy(streamId)
    ensures !Truthy(serverUrl) || !Truthy(streamId) ==> !Injects(Settings(serverUrl, streamId, enabled, token))
    ensures Injects(Settings(serverUrl, streamId, enabled, token)) ==> enabled != Bool(false)
  {
  }

  const LogMessageType := "LOGHEAD_LOG"

  /** The window-message listener: the payload of a truthy `data` whose
      `type` is exactly `LOGHEAD_LOG`, and nothing for any other message. */
  function Forwarded(data: Value): (r: Option<Value>)
    ensures r.Some? <==> Truthy(data) && Field(data, "type") == Str(LogMessageType)
    ensures r.Some? ==> r.value == Field(data, "payload")
  {
    if Truthy(data) && StrictEquals(Field(data, "type"), Str(LogMessageType)) then Some(Field(data, "payload"))
    else None
  }

  /** What the background worker is asked to send: the `PROXY_LOG_INGEST`
      message's endpoint, token and request body. */
  datatype Request = Request(endpoint: string, token: Value, body: Value)

  /** The texts `join` puts between the separators: `null` and `undefined`
      become empty, anything else its string form. */
  function JoinedTexts(items: seq<Value>): (r: seq<string>)
    ensures |r| == |items|
    ensures forall i :: 0 <= i < |items| && items[i].Str? ==> r[i] == items[i].s
  {
    seq(|items|, i requires 0 <= i < |items| => if Nullish(items[i]) then "" else ToStr(items[i]))
  }

  /** `[${level}] ${args.join(' ')}`. */
  function LogContent(level: Value, args: seq<Value>): (r: string)
    ensures StartsWith(r, "[" + ToStr(level) + "] ")
    ensures r[|"[" + ToStr(level) + "] "|..] == Join(JoinedTexts(args), " ")
  {
    var head := "[" + ToStr(level) + "] ";
    var r := head + Join(JoinedTexts(args), " ");
    assert r[..|head|] == head && r[|head|..] == Join(JoinedTexts(args), " ");
    r
  }

  /** The metadata of a browser log. */
  function BrowserMetadata(payload: Value): Value {
    Obj([Member("source", Str("browser")), Member("url", Field(payload, "url")),
         Member("level", Field(payload, "level")), Member("timestamp", Field(payload, "timestamp"))])
  }

  /** `sendToServer(payload, config)`: the endpoint under the server URL and
      a body with the stream and one log object. Reading `level` of a
      `null` payload, or joining `args` that are not an array, throws and
      nothing is sent. */
  function SendToServer(payload: Value, config: Settings): (r: Result<Request>)
    ensures r.Ok? <==> !Nullish(payload) && Field(payload, "args").Arr?
    ensures r.Ok? ==> && r.value.endpoint == ToStr(config.serverUrl) + "/api/ingest"
                      && r.value.token == config.token
                      && Field(r.value.body, "streamId") == config.streamId
  {
    if Nullish(payload) then Err(ReadError(payload, "level"))
    else if Nullish(Field(payload, "args")) then Err(ReadError(Field(payload, "args"), "join"))
    else if !Field(payload, "args").Arr? then Err("TypeError: payload.args.join is not a function")
    else
      var log := Obj([Member("content", Str(LogContent(Field(payload, "level"), Field(payload, "args").items))),
                      Member("metadata", BrowserMetadata(payload))]);
      var body := Obj([Member("streamId", config.streamId), Member("logs", log)]);
      assert "streamId"[0] != "logs"[0];
      assert Get(body.members, "streamId") == Get(body.members[..1], "streamId");
      Ok(Request(ToStr(config.serverUrl) + "/api/ingest", config.token, body))
  }

  /** The body is one log, not a list, and both ingest endpoints read it as
      exactly one entry: the formatted text with the browser metadata. */
  lemma {:induction false} SentLogIngested(payload: Value, config: Settings)
    requires SendToServer(payload, config).Ok?
    ensures var body := SendToServer(payload, config).value.body;
            var logs := Field(body, "logs");
            && !logs.Arr? && Entries(logs) == [logs]
            && Normalise(Entries(logs))
               == Ok([Entry(Str(LogContent(Field(payload, "level"), Field(payload, "args").items)),
                            BrowserMetadata(payload))])
  {
    var content := Str(LogContent(Field(payload, "level"), Field(payload, "args").items));
    var log := Obj([Member("content", content), Member("metadata", BrowserMetadata(payload))]);
    var body := SendToServer(payload, config).value.body;
    assert Field(body, "logs") == log;
    assert "content"[0] != "metadata"[0];
    assert Get(log.members, "content") == Get(log.members[..1], "content");
    assert |content.s| > 0 by {
      assert StartsWith(content.s, "[" + ToStr(Field(payload, "level")) + "] ");
    }
    OneObjectEntry(log);
  }

  /** A lone object with truthy content and metadata is one entry. */
  lemma {:induction false} OneObjectEntry(log: Value)
    requires log.Obj? && Truthy(Field(log, "content")) && Truthy(Field(log, "metadata"))
    ensures Normalise([log]) == Ok([Entry(Field(log, "content"), Field(log, "metadata"))])
  {
    var entry := Entry(Field(log, "content"), Field(log, "metadata"));
    assert [log][..0] == [] && [log][0] == log;
    assert Normalise([]) == Ok([]);
    assert Normalised(log) == Ok(entry);
    assert [] + [entry] == [entry];
  }
}
