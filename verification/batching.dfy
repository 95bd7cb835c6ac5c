/** The client-side ingestors: the terminal one (packages/terminal/main.ts)
    forwards the non-blank lines of its standard input, the docker one
    (packages/docker/main.ts) those of a container's two output streams.
    Each source has a batch and a timer flag; a line, the timer firing and
    the end of input are the events, and every handler runs to completion,
    so a batcher is a sequential object. `fetch` is a log of the requests
    issued; decoding the token's payload (base64 and `JSON.parse`) is the
    oracle `decode`. */
module Batching {
  import opened Wrappers
  import opened Strings
  import opened Json
  import Ingest
  import ApiServer

  /** A batch is sent as soon as it holds this many entries. */
  const MaxBatch := 10

  const DefaultApi := "http://localhost:4567"

  // ---------------------------------------------------------------------
  // Start-up

  /** `argv.token || process.env.LOGHEAD_TOKEN`, kept only when it is not
      empty. */
  function ChosenToken(flag: Option<string>, env: Option<string>): (r: Option<string>)
    ensures r.Some? <==> (flag.Some? && flag.value != "") || (env.Some? && env.value != "")
    ensures r.Some? ==> r.value != ""
    ensures flag.Some? && flag.value != "" ==> r == flag
  {
    if flag.Some? && flag.value != "" then flag
    else if env.Some? && env.value != "" then env
    else None
  }

  /** `api.replace(/\/$/, "")`: one trailing slash removed. */
  function StripTrailingSlash(url: string): (r: string)
    ensures EndsWith(url, "/") ==> r + "/" == url
    ensures !EndsWith(url, "/") ==> r == url
  {
    if EndsWith(url, "/") then url[..|url| - 1] else url
  }

  /** Only one slash goes: a URL ending in several keeps all but one. */
  lemma {:induction false} StripOneSlash(url: string)
    ensures StripTrailingSlash(url + "/") == url
    ensures StripTrailingSlash(url + "//") == url + "/"
  {
    assert EndsWith(url + "/", "/") by { assert (url + "/")[|url|..] == "/"; }
    assert EndsWith(url + "//", "/") by { assert (url + "//")[|url| + 1..] == "/"; }
    assert (url + "//")[..|url| + 1] == url + "/";
  }

  /** How the process starts: exit status 1 after an error message, or
      run with a token, the API base URL and (docker only) a container. */
  datatype Launch = Exit(status: int) | Run(token: string, apiUrl: string, container: string)

  function ApiUrl(api: Option<string>): string {
    StripTrailingSlash(if api.Some? then api.value else DefaultApi)
  }

  /** `packages/terminal/main.ts` before it reads any input. */
  function TerminalLaunch(flag: Option<string>, env: Option<string>, api: Option<string>): (r: Launch)
    ensures r == Exit(1) <==> ChosenToken(flag, env).None?
    ensures r.Run? ==> r.token == ChosenToken(flag, env).value && r.apiUrl == ApiUrl(api)
  {
    match ChosenToken(flag, env)
    case None => Exit(1)
    case Some(token) => Run(token, ApiUrl(api), "")
  }

  /** `packages/docker/main.ts` before it spawns `docker logs -f`: the token
      is checked first, then the container. */
  function DockerLaunch(flag: Option<string>, env: Option<string>, container: Option<string>, api: Option<string>)
    : (r: Launch)
    ensures r.Exit? <==> ChosenToken(flag, env).None? || container.None? || container.value == ""
    ensures r.Exit? ==> r.status == 1
    ensures r.Run? ==> r.token == ChosenToken(flag, env).value && r.container == container.value
                       && r.apiUrl == ApiUrl(api)
  {
    match ChosenToken(flag, env)
    case None => Exit(1)
    case Some(token) =>
      if container.None? || container.value == "" then Exit(1)
      else Run(token, ApiUrl(api), container.value)
  }

  /** `process.exit(code || 0)` when the child exits; `None` is the `null`
      code of a child ended by a signal. */
  function ExitCode(code: Option<int>): (r: int)
    ensures r == 0 <==> code.None? || code.value == 0
    ensures code.Some? ==> r == code.value
  {
    if code.Some? then code.value else 0
  }

  // ---------------------------------------------------------------------
  // Requests

  /** A JWS in compact serialization (section 7.1 of RFC 7515) has three
      parts separated by dots. */
  predicate CompactToken(token: string) {
    |Split(token, '.')| == 3
  }

  /** Three parts is exactly two dots. */
  lemma {:induction false} CompactTokenDots(token: string)
    ensures CompactToken(token) <==> Occurrences(token, '.') == 2
  {
    SplitCount(token, '.');
  }

  /** The `streamId` `flush` sends: the `sub` of the decoded payload. `None`
      is an exception, caught inside `flush`, that drops the batch: a token
      not of three parts, a payload that does not decode, or one that
      decodes to `null`. */
  function StreamIdOf(token: string, decode: string -> Option<Value>): (r: Option<Value>)
    ensures !CompactToken(token) ==> r.None?
  {
    if !CompactToken(token) then None
    else
      match decode(Split(token, '.')[1])
      case None => None
      case Some(payload) => if Nullish(payload) then None else Some(Field(payload, "sub"))
  }

  /** `POST <apiUrl>/api/ingest` with a bearer token and `{ streamId, logs }`. */
  datatype Post = Post(url: string, authorization: string, streamId: Value, logs: seq<Value>)

  function Body(p: Post): Value {
    Obj([Member("streamId", p.streamId), Member("logs", Arr(p.logs))])
  }

  function IngestPost(apiUrl: string, token: string, streamId: Value, logs: seq<Value>): (r: Post)
    ensures EndsWith(r.url, "/api/ingest") && StartsWith(r.authorization, ApiServer.BearerPrefix)
  {
    var p := Post(apiUrl + "/api/ingest", ApiServer.BearerPrefix + token, streamId, logs);
    assert p.url[|p.url| - |"/api/ingest"|..] == "/api/ingest";
    assert p.authorization[..|ApiServer.BearerPrefix|] == ApiServer.BearerPrefix;
    p
  }

  /** What the server reads back from a request: the header yields the
      token (a JWS holds no space), and `logs` the very entries sent. */
  lemma {:induction false} PostReadBack(apiUrl: string, token: string, streamId: Value, logs: seq<Value>)
    requires ' ' !in token
    ensures var p := IngestPost(apiUrl, token, streamId, logs);
            && ApiServer.BearerToken(p.authorization) == Some(token)
            && Field(Body(p), "streamId") == streamId
            && Ingest.Entries(Field(Body(p), "logs")) == logs
  {
    var ms := Body(IngestPost(apiUrl, token, streamId, logs)).members;
    assert "Bearer" + [' '] + token == ApiServer.BearerPrefix + token;
    SplitFirst("Bearer", token, ' ');
    SplitWithout(token, ' ');
    assert "logs"[0] != "streamId"[0];
    assert Get(ms, "streamId") == Get(ms[..1], "streamId");
  }

  /** The requests for a list of snapshots: one per snapshot, in order,
      when the token yields a stream id; none at all otherwise. */
  function Posts(apiUrl: string, token: string, decode: string -> Option<Value>, snapshots: seq<seq<Value>>)
    : (r: seq<Post>)
    ensures StreamIdOf(token, decode).None? ==> r == []
    ensures StreamIdOf(token, decode).Some? ==> |r| == |snapshots|
    decreases |snapshots|
  {
    match StreamIdOf(token, decode)
    case None => []
    case Some(sid) =>
      if snapshots == [] then []
      else Posts(apiUrl, token, decode, snapshots[..|snapshots| - 1])
           + [IngestPost(apiUrl, token, sid, snapshots[|snapshots| - 1])]
  }

  /** One more snapshot adds its request, if any, at the end. */
  lemma {:induction false} PostsSnoc(apiUrl: string, token: string, decode: string -> Option<Value>,
                  snapshots: seq<seq<Value>>, s: seq<Value>)
    ensures Posts(apiUrl, token, decode, snapshots + [s])
            == Posts(apiUrl, token, decode, snapshots)
               + match StreamIdOf(token, decode)
                 case None => []
                 case Some(sid) => [IngestPost(apiUrl, token, sid, s)]
  {
    assert (snapshots + [s])[..|snapshots|] == snapshots;
  }

  /** Snapshots concatenated in order. */
  function Concat(snapshots: seq<seq<Value>>): seq<Value> {
    if snapshots == [] then []
    else Concat(snapshots[..|snapshots| - 1]) + snapshots[|snapshots| - 1]
  }

  /** Every snapshot holds one to ten entries. */
  predicate Sized(snapshots: seq<seq<Value>>) {
    forall i :: 0 <= i < |snapshots| ==> 0 < |snapshots[i]| <= MaxBatch
  }

  lemma {:induction false} SizedSnoc(snapshots: seq<seq<Value>>, s: seq<Value>)
    requires Sized(snapshots) && 0 < |s| <= MaxBatch
    ensures Sized(snapshots + [s])
  {
    assert forall i :: 0 <= i < |snapshots| ==> (snapshots + [s])[i] == snapshots[i];
  }

  /** One more line, and the entry made of it. */
  lemma {:induction false} EntriesOfLinesSnoc(shape: Shape, lines: seq<string>, accepted: seq<Value>, line: string)
    requires |accepted| == |lines| && forall k :: 0 <= k < |lines| ==> accepted[k] == EntryOf(shape, lines[k])
    ensures forall k :: 0 <= k < |lines| + 1 ==> (accepted + [EntryOf(shape, line)])[k] == EntryOf(shape, (lines + [line])[k])
  {
    forall k | 0 <= k < |lines| + 1
      ensures (accepted + [EntryOf(shape, line)])[k] == EntryOf(shape, (lines + [line])[k])
    {
      if k < |lines| {
        assert (accepted + [EntryOf(shape, line)])[k] == accepted[k] && (lines + [line])[k] == lines[k];
      }
    }
  }

  lemma {:induction false} ConcatSnoc(snapshots: seq<seq<Value>>, s: seq<Value>)
    ensures Concat(snapshots + [s]) == Concat(snapshots) + s
  {
    assert (snapshots + [s])[..|snapshots|] == snapshots;
  }

  /** The entries of the requests, concatenated. */
  function PostedLogs(posts: seq<Post>): seq<Value> {
    if posts == [] then []
    else PostedLogs(posts[..|posts| - 1]) + posts[|posts| - 1].logs
  }

  /** With a usable token the requests carry every flushed entry, in order
      and once; with any other token they carry none. */
  lemma {:induction false} PostsCarryFlushed(apiUrl: string, token: string, decode: string -> Option<Value>,
                                             snapshots: seq<seq<Value>>)
    ensures PostedLogs(Posts(apiUrl, token, decode, snapshots))
            == if StreamIdOf(token, decode).Some? then Concat(snapshots) else []
    decreases |snapshots|
  {
    if StreamIdOf(token, decode).Some? && snapshots != [] {
      var init := snapshots[..|snapshots| - 1];
      PostsCarryFlushed(apiUrl, token, decode, init);
      var ps := Posts(apiUrl, token, decode, snapshots);
      assert ps[..|ps| - 1] == Posts(apiUrl, token, decode, init);
    }
  }

  // ---------------------------------------------------------------------
  // Batchers

  /** Which ingestor a batcher belongs to: the terminal one sends the lines
      themselves and echoes them; the docker one sends
      `{ content: line, metadata: { source, container } }`. */
  datatype Shape = Terminal | Docker(source: string, container: string)

  function EntryOf(shape: Shape, line: string): (r: Value)
    ensures shape.Terminal? ==> r == Str(line)
    ensures shape.Docker? ==> Field(r, "content") == Str(line)
  {
    match shape
    case Terminal => Str(line)
    case Docker(source, container) =>
      var ms := [Member("content", Str(line)),
                 Member("metadata", Obj([Member("source", Str(source)), Member("container", Str(container))]))];
      assert "content"[0] != "metadata"[0];
      assert Get(ms, "content") == Get(ms[..1], "content");
      Obj(ms)
  }

  /** The lines of a terminal batch reach the store one by one, each with
      metadata `{}`. */
  lemma {:induction false} TerminalBatchStored(lines: seq<string>)
    requires forall i :: 0 <= i < |lines| ==> !IsBlank(lines[i])
    ensures var entries := seq(|lines|, i requires 0 <= i < |lines| => EntryOf(Terminal, lines[i]));
            && Ingest.Normalise(entries).Ok?
            && Ingest.Normalise(entries).value
               == seq(|lines|, i requires 0 <= i < |lines| => Ingest.Entry(Str(lines[i]), Obj([])))
  {
    var entries := seq(|lines|, i requires 0 <= i < |lines| => EntryOf(Terminal, lines[i]));
    forall i | 0 <= i < |entries| ensures entries[i].Str? && entries[i].s != "" {
      assert !IsBlank(lines[i]);
    }
    Ingest.NormaliseStrings(entries);
  }

  /** One source: its `batch`, its `timer`, and what it has done so far —
      the lines echoed, the snapshots `flush` took, the requests it issued,
      and (ghost) every line it accepted and the entry made of each. */
  class Batcher {
    const token: string
    const apiUrl: string
    const decode: string -> Option<Value>
    const shape: Shape
    var batch: seq<Value>
    var timer: bool
    var echoed: seq<string>
    var flushed: seq<seq<Value>>
    var posts: seq<Post>
    ghost var lines: seq<string>
    ghost var accepted: seq<Value>

    /** Every accepted entry is made of its line, and is flushed or
        waiting, in order and once; an armed timer means a waiting batch;
        each flushed snapshot holds one to ten entries and was sent if the
        token allows. */
    ghost predicate Accounted()
      reads this
    {
      && |accepted| == |lines|
      && (forall k :: 0 <= k < |lines| ==> accepted[k] == EntryOf(shape, lines[k]))
      && |batch| <= MaxBatch
      && (timer ==> batch != [])
      && Concat(flushed) + batch == accepted
      && Sized(flushed)
      && posts == Posts(apiUrl, token, decode, flushed)
    }

    /** Between events the batch is also below the limit. */
    ghost predicate Valid()
      reads this
    {
      Accounted() && |batch| < MaxBatch
    }

    constructor (token: string, apiUrl: string, decode: string -> Option<Value>, shape: Shape)
      ensures Valid()
      ensures this.token == token && this.apiUrl == apiUrl && this.decode == decode && this.shape == shape
      ensures batch == [] && !timer && echoed == [] && flushed == [] && posts == [] && lines == [] && accepted == []
    {
      this.token := token;
      this.apiUrl := apiUrl;
      this.decode := decode;
      this.shape := shape;
      batch := [];
      timer := false;
      echoed := [];
      flushed := [];
      posts := [];
      lines := [];
      accepted := [];
    }

    /** `flush`: nothing for an empty batch; otherwise the batch is taken,
        emptied and the timer disarmed before the request is issued, and
        a token that yields no stream id drops the batch. */
    method Flush()
      requires Accounted()
      modifies this`batch, this`timer, this`flushed, this`posts
      ensures Valid() && batch == [] && !timer
      ensures old(batch) == [] ==> flushed == old(flushed) && posts == old(posts)
      ensures old(batch) != [] ==>
                && flushed == old(flushed) + [old(batch)]
                && posts == old(posts) + match StreamIdOf(token, decode)
                                         case None => []
                                         case Some(sid) => [IngestPost(apiUrl, token, sid, old(batch))]
    {
      if batch == [] {
        return;
      }
      var logsToSend := batch;
      ghost var before := flushed;
      batch := [];
      timer := false;
      SizedSnoc(before, logsToSend);
      ConcatSnoc(before, logsToSend);
      PostsSnoc(apiUrl, token, decode, before, logsToSend);
      flushed := flushed + [logsToSend];
      var streamId := StreamIdOf(token, decode);
      if streamId.Some? {
        posts := posts + [IngestPost(apiUrl, token, streamId.value, logsToSend)];
      } else {
        assert posts + [] == posts;
      }
    }

    /** The part of `rl.on('line')` for a line that is not blank: the line
        is echoed (by the terminal ingestor) and its entry appended to the
        batch, which may now be full. */
    method Accept(line: string)
      requires Valid() && !IsBlank(line)
      modifies this`echoed, this`batch, this`lines, this`accepted
      ensures Accounted()
      ensures var entry := EntryOf(shape, line);
              && lines == old(lines) + [line]
              && accepted == old(accepted) + [entry]
              && batch == old(batch) + [entry]
              && echoed == (if shape.Terminal? then old(echoed) + [line] else old(echoed))
    {
      if shape.Terminal? {
        echoed := echoed + [line];
      }
      var entry := EntryOf(shape, line);
      EntriesOfLinesSnoc(shape, lines, accepted, line);
      assert Concat(flushed) + (batch + [entry]) == accepted + [entry];
      batch := batch + [entry];
      lines := lines + [line];
      accepted := accepted + [entry];
    }

    /** `rl.on('line')`: a blank line is ignored; any other is echoed (by
        the terminal ingestor) and its entry appended; a tenth entry sends
        the batch, otherwise the timer is armed if it was not. */
    method OnLine(line: string)
      requires Valid()
      modifies this
      ensures Valid()
      ensures IsBlank(line) ==> && batch == old(batch) && timer == old(timer) && echoed == old(echoed)
                                && flushed == old(flushed) && posts == old(posts)
                                && lines == old(lines) && accepted == old(accepted)
      ensures !IsBlank(line) ==>
                var entry := EntryOf(shape, line);
                && lines == old(lines) + [line]
                && accepted == old(accepted) + [entry]
                && echoed == (if shape.Terminal? then old(echoed) + [line] else old(echoed))
                && (|old(batch)| + 1 == MaxBatch ==> batch == [] && !timer && flushed == old(flushed) + [old(batch) + [entry]])
                && (|old(batch)| + 1 < MaxBatch ==>
                      batch == old(batch) + [entry] && timer && flushed == old(flushed) && posts == old(posts))
    {
      if IsBlank(line) {
        return;
      }
      Accept(line);
      if |batch| >= MaxBatch {
        Flush();
      } else if !timer {
        timer := true;
      }
    }

    /** The timer fires (it is armed, or it would have been cleared): the
        callback is `flush`. */
    method OnTimer()
      requires Valid() && timer
      modifies this`batch, this`timer, this`flushed, this`posts
      ensures Valid() && batch == [] && !timer
      ensures flushed == old(flushed) + [old(batch)]
    {
      Flush();
    }

    /** `rl.on('close')` of the terminal ingestor: a last flush, after which
        every accepted line has been handed to `flush`. */
    method OnClose()
      requires Valid()
      modifies this`batch, this`timer, this`flushed, this`posts
      ensures Valid() && batch == [] && !timer
      ensures Concat(flushed) == accepted
      ensures PostedLogs(posts) == if StreamIdOf(token, decode).Some? then accepted else []
    {
      Flush();
      PostsCarryFlushed(apiUrl, token, decode, flushed);
    }
  }

  // ---------------------------------------------------------------------
  // The docker ingestor

  const StdoutSource := "STDOUT"
  const StderrSource := "STDERR"

  /** `processStream(child.stdout, "STDOUT")` and the same for stderr, each
      with its own batcher, and the exit status once the process ends. */
  class DockerIngestor {
    const stdout: Batcher
    const stderr: Batcher
    var exitStatus: Option<int>

    ghost predicate Valid()
      reads this, stdout, stderr
    {
      && stdout != stderr && stdout.Valid() && stderr.Valid()
      && stdout.shape.Docker? && stdout.shape.source == StdoutSource
      && stderr.shape.Docker? && stderr.shape.source == StderrSource
      && stdout.shape.container == stderr.shape.container
    }

    constructor (token: string, apiUrl: string, decode: string -> Option<Value>, container: string)
      ensures Valid() && fresh(stdout) && fresh(stderr) && exitStatus == None
      ensures stdout.accepted == [] && stderr.accepted == []
      ensures stdout.shape == Docker(StdoutSource, container) && stderr.shape == Docker(StderrSource, container)
    {
      stdout := new Batcher(token, apiUrl, decode, Docker(StdoutSource, container));
      stderr := new Batcher(token, apiUrl, decode, Docker(StderrSource, container));
      exitStatus := None;
    }

    /** A line on the child's stdout (`fromStdout`) or stderr: only that
        source's batcher changes. */
    method OnLine(fromStdout: bool, line: string)
      requires Valid() && exitStatus.None?
      modifies stdout, stderr
      ensures Valid()
      ensures fromStdout ==> unchanged(stderr)
      ensures !fromStdout ==> unchanged(stdout)
      ensures var b := if fromStdout then stdout else stderr;
              && b.accepted == (if IsBlank(line) then old(b.accepted) else old(b.accepted) + [EntryOf(b.shape, line)])
              && (!IsBlank(line) && |old(b.batch)| + 1 < MaxBatch ==>
                    b.batch == old(b.batch) + [EntryOf(b.shape, line)] && b.flushed == old(b.flushed) && b.posts == old(b.posts))
    {
      if fromStdout {
        stdout.OnLine(line);
      } else {
        stderr.OnLine(line);
      }
    }

    /** `child.on('close')` as written: the exit status is set at once;
        entries still waiting in either batch are never sent. */
    method ExitAsWritten(code: Option<int>)
      requires Valid()
      modifies this`exitStatus
      ensures Valid() && exitStatus == Some(ExitCode(code))
      ensures Concat(stdout.flushed) + stdout.batch == stdout.accepted
    {
      exitStatus := Some(ExitCode(code));
    }

    /** `child.on('close')` with both batches flushed before the exit, so
        that every accepted entry of each source is handed to `flush`. */
    method OnChildClose(code: Option<int>)
      requires Valid()
      modifies this`exitStatus, stdout, stderr
      ensures Valid() && exitStatus == Some(ExitCode(code))
      ensures Concat(stdout.flushed) == stdout.accepted && Concat(stderr.flushed) == stderr.accepted
      ensures stdout.accepted == old(stdout.accepted) && stderr.accepted == old(stderr.accepted)
    {
      stdout.Flush();
      stderr.Flush();
      exitStatus := Some(ExitCode(code));
    }
  }

  /** Entries of the two sources never share a batch: every snapshot of a
      docker batcher holds only entries of its own source. */
  lemma {:induction false} SnapshotsOfOneSource(b: Batcher, i: int, j: int)
    requires b.Valid() && b.shape.Docker?
    requires 0 <= i < |b.flushed| && 0 <= j < |b.flushed[i]|
    ensures Field(Field(b.flushed[i][j], "metadata"), "source") == Str(b.shape.source)
  {
    ConcatMember(b.flushed, i, j);
    assert Concat(b.flushed) == b.accepted[..|Concat(b.flushed)|];
    var k :| 0 <= k < |Concat(b.flushed)| && Concat(b.flushed)[k] == b.flushed[i][j];
    assert b.flushed[i][j] == EntryOf(b.shape, b.lines[k]);
    DockerEntryMetadata(b.shape.source, b.shape.container, b.lines[k]);
  }

  /** An element of a snapshot is an element of the concatenation. */
  lemma {:induction false} ConcatMember(snapshots: seq<seq<Value>>, i: int, j: int)
    requires 0 <= i < |snapshots| && 0 <= j < |snapshots[i]|
    ensures snapshots[i][j] in Concat(snapshots)
    decreases |snapshots|
  {
    var init := snapshots[..|snapshots| - 1];
    if i < |snapshots| - 1 {
      assert init[i] == snapshots[i];
      ConcatMember(init, i, j);
    }
  }

  /** The docker entry of a line names its source and container. */
  lemma {:induction false} DockerEntryMetadata(source: string, container: string, line: string)
    ensures var meta := Field(EntryOf(Docker(source, container), line), "metadata");
            Field(meta, "source") == Str(source) && Field(meta, "container") == Str(container)
  {
    var meta := [Member("source", Str(source)), Member("container", Str(container))];
    var ms := [Member("content", Str(line)), Member("metadata", Obj(meta))];
    assert "content"[0] != "metadata"[0] && "source"[0] != "container"[0];
    assert Get(ms, "metadata") == Obj(meta);
    assert Get(meta, "source") == Get(meta[..1], "source");
  }

  /** Exiting as written loses a waiting line: a container that prints one
      line and exits before the timer fires has its line accepted, never
      flushed, and nothing sent. */
  method ExitLosesWaitingLine(token: string, decode: string -> Option<Value>) returns (waiting: seq<Value>, sent: seq<Post>)
    ensures |waiting| == 1 && sent == []
  {
    var d := new DockerIngestor(token, DefaultApi, decode, "app");
    d.OnLine(true, "ready");
    assert !IsBlank("ready") by { assert !IsSpace("ready"[0]); }
    d.ExitAsWritten(Some(0));
    assert d.stdout.flushed == [];
    waiting, sent := d.stdout.batch, d.stdout.posts;
  }

  /** With the flush before the exit, the same line is flushed. */
  method CloseSendsWaitingLine(token: string, decode: string -> Option<Value>) returns (waiting: seq<Value>, flushed: seq<Value>)
    ensures waiting == [] && |flushed| == 1
  {
    var d := new DockerIngestor(token, DefaultApi, decode, "app");
    d.OnLine(true, "ready");
    assert !IsBlank("ready") by { assert !IsSpace("ready"[0]); }
    assert |d.stdout.accepted| == 1;
    d.OnChildClose(Some(0));
    waiting, flushed := d.stdout.batch, Concat(d.stdout.flushed);
  }
}
