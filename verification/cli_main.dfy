/** The command-line entry point of cli/src/main.ts: the arguments
    `parseArgs` produced are turned into one command (or the usage text, or
    an error), the command runs against the local store, and the process
    ends with a status. Console output, the database migration and the
    servers `start` and `stdio` launch are not part of this model; the
    lines read from standard input or from `docker logs` are parameters. */
module CliMain {
  import opened Wrappers
  import opened Strings
  import opened Json
  import opened Tables
  import opened Ingest
  import CliDb
  import McpServer

  /** A positional argument as `parseArgs` hands it over: the text, or a
      number when the text reads as one. */
  datatype Arg = Word(text: string) | Number(value: int)

  /** The parsed command line: `args._`, the string options `project`,
      `name`, `stream`, `container` and `type`, and `--help` (`-h`). */
  datatype Args = Args(positional: seq<Arg>, options: map<string, string>, help: bool)

  /** What the command line asks for, once its arguments are checked. */
  datatype Command =
    | Usage
    | Init
    | Start
    | Stdio
    | ProjectsList
    | ProjectsAdd(name: string)
    | ProjectsHint
    | StreamsList(projectId: string)
    | StreamsAdd(projectId: string, kind: string, name: string, config: Value)
    | StreamsHint
    | Ingesting(streamId: string)
    | Attaching(streamId: string, container: string)
    | LogList(streamId: string)
    | Nothing
    | Thrown(message: string)
    | UnknownCommand

  /** `args._[i]`, `None` past the end. */
  function Positional(args: Args, i: nat): Option<Arg> {
    if i < |args.positional| then Some(args.positional[i]) else None
  }

  /** `!args._[i]`: missing, the empty word or the number zero. */
  predicate Falsy(a: Option<Arg>) {
    match a
    case None => true
    case Some(Word(s)) => s == ""
    case Some(Number(n)) => n == 0
  }

  /** `args._[i]?.toString()`, with `undefined` read as the empty text:
      every place that uses it tests it for truthiness first. */
  function PositionalText(args: Args, i: nat): (r: string)
    ensures Positional(args, i).Some? && Positional(args, i).value.Word? ==> r == Positional(args, i).value.text
  {
    match Positional(args, i)
    case None => ""
    case Some(Word(s)) => s
    case Some(Number(n)) => IntToString(n)
  }

  /** `args.<name>` of a string option, with a missing option read as the
      empty text: both are falsy, and no value reaches the store untested. */
  function OptionText(args: Args, name: string): (r: string)
    ensures r != "" ==> name in args.options && r == args.options[name]
  {
    if name in args.options then args.options[name] else ""
  }

  const StreamKinds := ["docker", "browser", "terminal"]

  /** The config of `streams add`: `{}`, with `container` only for a
      `docker` stream given a container. */
  function StreamConfig(kind: string, container: string): (r: Value)
    ensures r.Obj? && Plain(r)
    ensures Field(r, "container") == if kind == "docker" && container != "" then Str(container) else Undefined
    ensures kind != "docker" || container == "" ==> r == Obj([])
  {
    if kind == "docker" && container != "" then Obj([Member("container", Str(container))]) else Obj([])
  }

  /** `projects list|add|create`: an add takes the third word, or else
      `--name`. Any other subcommand only prints a hint. */
  function ProjectsCommand(args: Args): (c: Command)
    ensures c.ProjectsAdd? ==> c.name != ""
  {
    if Positional(args, 1) == Some(Word("list")) then ProjectsList
    else if Positional(args, 1) == Some(Word("add")) || Positional(args, 1) == Some(Word("create")) then
      var name := if PositionalText(args, 2) != "" then PositionalText(args, 2) else OptionText(args, "name");
      if name == "" then Thrown("Project name required") else ProjectsAdd(name)
    else ProjectsHint
  }

  /** `streams list|add`: the type is checked before the project and the
      name. Any other subcommand only prints a hint. */
  function StreamsCommand(args: Args): (c: Command)
    ensures c.StreamsList? ==> c.projectId != ""
    ensures c.StreamsAdd? ==> c.kind in StreamKinds && c.projectId != "" && c.name != "" && Plain(c.config)
  {
    if Positional(args, 1) == Some(Word("list")) then
      var projectId := OptionText(args, "project");
      if projectId == "" then Thrown("Missing arg: --project") else StreamsList(projectId)
    else if Positional(args, 1) == Some(Word("add")) then
      var kind := PositionalText(args, 2);
      var projectId := OptionText(args, "project");
      var name := OptionText(args, "name");
      if kind == "" || kind !in StreamKinds then Thrown("Invalid or missing type. Use: docker, browser, terminal")
      else if projectId == "" || name == "" then Thrown("Missing args: --project, --name")
      else StreamsAdd(projectId, kind, name, StreamConfig(kind, OptionText(args, "container")))
    else StreamsHint
  }

  /** `main`'s choice: the usage text for `--help` or no command, then the
      `switch` on the first word; a number never matches a case. */
  function Plan(args: Args): (c: Command)
    ensures c.Usage? <==> args.help || Falsy(Positional(args, 0))
    ensures c.Start? <==> !args.help && Positional(args, 0) == Some(Word("start"))
    ensures c.Stdio? <==> !args.help && Positional(args, 0) == Some(Word("stdio"))
    ensures c.ProjectsAdd? ==> c.name != ""
    ensures c.StreamsAdd? ==> c.kind in StreamKinds && c.projectId != "" && c.name != "" && Plain(c.config)
    ensures c.Ingesting? ==> c.streamId != ""
    ensures c.Attaching? ==> c.streamId != "" && c.container != ""
    ensures c.LogList? ==> c.streamId != ""
  {
    var command := Positional(args, 0);
    if args.help || Falsy(command) then Usage
    else if command.value.Number? then UnknownCommand
    else
      var word := command.value.text;
      if word == "init" then Init
      else if word == "start" then Start
      else if word == "stdio" then Stdio
      else if word == "projects" then ProjectsCommand(args)
      else if word == "streams" then StreamsCommand(args)
      else if word == "ingest" then
        if OptionText(args, "stream") == "" then Thrown("Missing arg: --stream")
        else Ingesting(OptionText(args, "stream"))
      else if word == "docker" || word == "attach" then
        if OptionText(args, "stream") == "" || OptionText(args, "container") == "" then
          Thrown("Missing args: --stream, --container")
        else Attaching(OptionText(args, "stream"), OptionText(args, "container"))
      else if word == "log" then
        if Positional(args, 1) != Some(Word("list")) then Nothing
        else if OptionText(args, "stream") == "" then Thrown("Missing arg: --stream")
        else LogList(OptionText(args, "stream"))
      else UnknownCommand
  }

  /** `streams add` of a known type with both options creates a stream of
      that type; the container is kept for `docker` only. */
  lemma {:induction false} StreamsAddPlanned(kind: string, projectId: string, name: string, container: string, rest: seq<Arg>)
    requires kind in StreamKinds && projectId != "" && name != ""
    ensures var args := Args([Word("streams"), Word("add"), Word(kind)] + rest,
                             map["project" := projectId, "name" := name, "container" := container], false);
            Plan(args) == StreamsAdd(projectId, kind, name, StreamConfig(kind, container))
  {
    var args := Args([Word("streams"), Word("add"), Word(kind)] + rest,
                     map["project" := projectId, "name" := name, "container" := container], false);
    assert Positional(args, 0) == Some(Word("streams"));
    assert Positional(args, 1) == Some(Word("add"));
    assert Positional(args, 2) == Some(Word(kind));
    assert "streams" != "init" && "streams" != "start" && "streams" != "stdio" && "streams" != "projects";
  }

  /** A project name given as a number is its decimal text: `projects add
      0` creates a project named "0", although `0` alone is falsy. */
  lemma {:induction false} NumericProjectName(n: int)
    ensures Plan(Args([Word("projects"), Word("add"), Number(n)], map[], false)) == ProjectsAdd(IntToString(n))
  {
    var args := Args([Word("projects"), Word("add"), Number(n)], map[], false);
    assert Positional(args, 0) == Some(Word("projects"));
    assert Positional(args, 1) == Some(Word("add"));
    assert "projects" != "init" && "projects" != "start" && "projects" != "stdio";
    assert "add" != "list";
    assert PositionalText(args, 2) == IntToString(n);
    if n < 0 {
      assert IntToString(n)[0] == '-';
    } else {
      assert |NatToString(n)| >= 1;
    }
  }

  // ---------------------------------------------------------------------
  // Reading lines

  /** The entries a line reader stores, in order: every line that is not
      blank, as its own content, with the given metadata (`{}` for
      `ingest`, `{ source }` for one stream of `attach`). */
  function LineEntries(lines: seq<string>, metadata: Value): (r: seq<Entry>)
    ensures |r| <= |lines|
    ensures forall e :: e in r ==> && e.metadata == metadata && e.content.Str?
                                    && !IsBlank(e.content.s) && e.content.s in lines
  {
    if lines == [] then []
    else
      var rest := LineEntries(lines[..|lines| - 1], metadata);
      var line := lines[|lines| - 1];
      if IsBlank(line) then rest else rest + [Entry(Str(line), metadata)]
  }

  /** Reading two stretches of lines stores the entries of the first, then
      those of the second. */
  lemma {:induction false} LineEntriesAppend(a: seq<string>, b: seq<string>, metadata: Value)
    ensures LineEntries(a + b, metadata) == LineEntries(a, metadata) + LineEntries(b, metadata)
    decreases |b|
  {
    if b == [] {
      assert a + b == a;
    } else {
      var init := b[..|b| - 1];
      assert (a + b)[..|a + b| - 1] == a + init;
      assert (a + b)[|a + b| - 1] == b[|b| - 1];
      LineEntriesAppend(a, init, metadata);
    }
  }

  /** Every line that is not blank is stored, and in the order read. */
  lemma {:induction false} LineEntriesKeep(lines: seq<string>, metadata: Value, i: int)
    requires 0 <= i < |lines| && !IsBlank(lines[i])
    ensures Entry(Str(lines[i]), metadata) in LineEntries(lines, metadata)
  {
    var before := lines[..i];
    var after := lines[i + 1..];
    assert lines == before + [lines[i]] + after;
    LineEntriesAppend(before + [lines[i]], after, metadata);
    LineEntriesAppend(before, [lines[i]], metadata);
    assert LineEntries([lines[i]], metadata) == [Entry(Str(lines[i]), metadata)] by {
      assert [lines[i]][..0] == [];
    }
  }

  /** The entries of a prefix of the lines open those of all the lines. */
  lemma {:induction false} LineEntriesPrefix(lines: seq<string>, metadata: Value, i: int)
    requires 0 <= i <= |lines|
    ensures LineEntries(lines[..i], metadata) <= LineEntries(lines, metadata)
  {
    assert lines == lines[..i] + lines[i..];
    LineEntriesAppend(lines[..i], lines[i..], metadata);
  }

  /** One more line read: its entry, unless it is blank. */
  lemma {:induction false} LineEntriesSnoc(lines: seq<string>, metadata: Value, i: int)
    requires 0 <= i < |lines|
    ensures LineEntries(lines[..i + 1], metadata)
            == LineEntries(lines[..i], metadata) + if IsBlank(lines[i]) then [] else [Entry(Str(lines[i]), metadata)]
  {
    assert lines[..i + 1][..i] == lines[..i] && lines[..i + 1][i] == lines[i];
  }

  /** A line the store refused ends the run over all the lines there. */
  lemma {:induction false} LineRefused(t: Snapshot, p: Policy, streamId: Result<string>, lines: seq<string>,
                                       metadata: Value, i: nat, after: seq<LogRow>)
    requires i < |lines| && !IsBlank(lines[i])
    requires AllStored(t, p, LineEntries(lines[..i], metadata))
    requires Appended(t.logs, after, streamId, LineEntries(lines[..i], metadata), CliSqlite)
    requires !StoredAt(t, p, Entry(Str(lines[i]), metadata), |LineEntries(lines[..i], metadata)|)
    ensures Refused(t, p, streamId, LineEntries(lines, metadata), after)
    ensures !AllStored(t, p, LineEntries(lines, metadata))
  {
    var kept := LineEntries(lines[..i], metadata);
    var all := LineEntries(lines, metadata);
    LineEntriesSnoc(lines, metadata, i);
    LineEntriesPrefix(lines, metadata, i + 1);
    assert all[..|kept| + 1] == kept + [Entry(Str(lines[i]), metadata)];
    assert all[..|kept|] == kept && all[|kept|] == Entry(Str(lines[i]), metadata);
    assert RefusedAt(t, p, streamId, all, after, |kept|);
    assert !StoredAt(t, p, all[|kept|], |kept|);
  }

  /** A line that is not blank, offered to the store after the lines
      before it: taken, the run has stored one more line; refused, the run
      over all the lines stops there. */
  lemma {:induction false} LineTurn(t: Snapshot, p: Policy, streamId: Result<string>, lines: seq<string>,
                                    metadata: Value, i: nat, logs: seq<LogRow>, vectors: set<nat>,
                                    logs': seq<LogRow>, vectors': set<nat>, took: bool)
    requires i < |lines| && !IsBlank(lines[i])
    requires Progressed(t, logs, vectors, streamId, LineEntries(lines[..i], metadata), CliSqlite)
    requires AllStored(t, p, LineEntries(lines[..i], metadata))
    requires took <==> StoredAt(t, p, Entry(Str(lines[i]), metadata), |LineEntries(lines[..i], metadata)|)
    requires took ==> Progressed(t, logs', vectors', streamId,
                                 LineEntries(lines[..i], metadata) + [Entry(Str(lines[i]), metadata)], CliSqlite)
    requires !took ==> logs' == logs
    ensures took ==> && Progressed(t, logs', vectors', streamId, LineEntries(lines[..i + 1], metadata), CliSqlite)
                     && AllStored(t, p, LineEntries(lines[..i + 1], metadata))
    ensures !took ==> Refused(t, p, streamId, LineEntries(lines, metadata), logs')
                      && !AllStored(t, p, LineEntries(lines, metadata))
  {
    LineEntriesSnoc(lines, metadata, i);
    if took {
      AllStoredSnoc(t, p, LineEntries(lines[..i], metadata), Entry(Str(lines[i]), metadata));
    } else {
      LineRefused(t, p, streamId, lines, metadata, i, logs');
    }
  }

  /** One turn of that loop, in a run from the store `t`: a blank line is
      skipped, any other stored when the run's policy lets it take its
      place. */
  method StoreLine(db: CliDb.DbService, streamId: string, lines: seq<string>, i: nat, metadata: Value,
                   ghost t: Snapshot)
    returns (r: Result<()>)
    requires db.db.Valid() && !metadata.Undefined? && i < |lines| && db.db.streams == t.streams
    requires Progressed(t, db.db.logs, db.db.vectors, Ok(streamId), LineEntries(lines[..i], metadata), CliSqlite)
    requires AllStored(t, McpServer.CliPolicy(t.streams, db.embed, Ok(streamId)), LineEntries(lines[..i], metadata))
    modifies db.db`config, db.db`logs, db.db`vectors, db.db`draws
    ensures db.db.Valid() && db.db.streams == old(db.db.streams) && db.db.projects == old(db.db.projects)
    ensures r.Ok? <==> || IsBlank(lines[i])
                       || StoredAt(t, McpServer.CliPolicy(t.streams, db.embed, Ok(streamId)),
                                   Entry(Str(lines[i]), metadata), |LineEntries(lines[..i], metadata)|)
    ensures r.Ok? ==>
              && Progressed(t, db.db.logs, db.db.vectors, Ok(streamId), LineEntries(lines[..i + 1], metadata), CliSqlite)
              && AllStored(t, McpServer.CliPolicy(t.streams, db.embed, Ok(streamId)), LineEntries(lines[..i + 1], metadata))
    ensures r.Err? ==> && db.db.logs == old(db.db.logs)
                       && Refused(t, McpServer.CliPolicy(t.streams, db.embed, Ok(streamId)), Ok(streamId),
                                  LineEntries(lines, metadata), db.db.logs)
                       && !AllStored(t, McpServer.CliPolicy(t.streams, db.embed, Ok(streamId)), LineEntries(lines, metadata))
  {
    LineEntriesSnoc(lines, metadata, i);
    if IsBlank(lines[i]) {
      return Ok(());
    }
    ghost var logs, vectors := db.db.logs, db.db.vectors;
    r := McpServer.StoreEntry(db, Ok(streamId), Entry(Str(lines[i]), metadata), t, LineEntries(lines[..i], metadata));
    LineTurn(t, McpServer.CliPolicy(t.streams, db.embed, Ok(streamId)), Ok(streamId), lines, metadata, i,
             logs, vectors, db.db.logs, db.db.vectors, r.Ok?);
  }

  /** The loop of `ingest` and of each stream of `attach`: skip blank
      lines, store the others one at a time; the first refused line throws
      and ends the loop, and the lines stored before it stay stored. */
  method StoreLines(db: CliDb.DbService, streamId: string, lines: seq<string>, metadata: Value)
    returns (r: Result<()>)
    requires db.db.Valid() && !metadata.Undefined?
    modifies db.db`config, db.db`logs, db.db`vectors, db.db`draws
    ensures db.db.Valid() && db.db.streams == old(db.db.streams) && db.db.projects == old(db.db.projects)
    ensures var t := old(db.db.State());
            var p := McpServer.CliPolicy(t.streams, db.embed, Ok(streamId));
            var kept := LineEntries(lines, metadata);
      && (r.Ok? <==> AllStored(t, p, kept))
      && (r.Ok? ==> Progressed(t, db.db.logs, db.db.vectors, Ok(streamId), kept, CliSqlite))
      && (r.Err? ==> Refused(t, p, Ok(streamId), kept, db.db.logs))
  {
    ghost var t := db.db.State();
    ghost var p := McpServer.CliPolicy(t.streams, db.embed, Ok(streamId));
    ProgressedNothing(t, Ok(streamId), CliSqlite);
    assert lines[..0] == [];
    var i := 0;
    while i < |lines|
      invariant 0 <= i <= |lines|
      invariant db.db.Valid() && db.db.streams == t.streams && db.db.projects == t.projects
      invariant Progressed(t, db.db.logs, db.db.vectors, Ok(streamId), LineEntries(lines[..i], metadata), CliSqlite)
      invariant AllStored(t, p, LineEntries(lines[..i], metadata))
    {
      LineEntriesSnoc(lines, metadata, i);
      var stored := StoreLine(db, streamId, lines, i, metadata, t);
      if stored.Err? {
        return Err(stored.error);
      }
      i := i + 1;
    }
    assert lines[..i] == lines;
    return Ok(());
  }

  // ---------------------------------------------------------------------
  // log list

  const PreviewLength := 50

  /** `content.substring(0, 50)`. */
  function Preview(content: string): (r: string)
    ensures |r| <= PreviewLength && StartsWith(content, r)
    ensures |content| <= PreviewLength ==> r == content
    ensures |content| > PreviewLength ==> |r| == PreviewLength
  {
    if |content| <= PreviewLength then content else content[..PreviewLength]
  }

  /** One row of the `log list` table. */
  datatype LogLine = LogLine(content: string, timestamp: nat)

  /** `log list`: the fifty most recent logs of the stream (all of them
      when it has fewer), newest first, each cut to its first fifty
      characters. */
  function LogTable(db: CliDb.DbService, streamId: string): (r: seq<LogLine>)
    reads db.db
    ensures |r| == Min(50, |RowsOfStream(db.db.logs, streamId)|)
    ensures forall i :: 0 <= i < |r| ==>
              var l := NewestFirst(db.db.logs, streamId)[i];
              r[i] == LogLine(Preview(l.content), l.timestamp)
    ensures forall i :: 0 <= i < |r| ==> |r[i].content| <= PreviewLength
    ensures forall i, j :: 0 <= i < j < |r| ==> r[i].timestamp >= r[j].timestamp
  {
    var logs := db.GetRecentLogs(streamId, 50);
    seq(|logs|, i requires 0 <= i < |logs| => LogLine(Preview(logs[i].content), logs[i].timestamp))
  }

  // ---------------------------------------------------------------------
  // The whole run

  /** Whether `main` ended abnormally, and whether its `finally` closed the
      store. `Deno.exit` ends the process at once, so neither the usage
      text's exit nor the exit in `catch` or `default` reaches `finally`. */
  datatype Outcome = Outcome(status: nat, closed: bool)

  /** The metadata each stream of `attach` stores with its lines. */
  function SourceMetadata(prefix: string): Value {
    Obj([Member("source", Str(prefix))])
  }

  /** The entries `attach` stores: those of the container's standard
      output, then those of its standard error. */
  function AttachEntries(childOut: seq<string>, childErr: seq<string>): seq<Entry> {
    LineEntries(childOut, SourceMetadata("STDOUT")) + LineEntries(childErr, SourceMetadata("STDERR"))
  }

  /** Whether a command completes without throwing, given the store `t` it
      starts from, the lines it reads, and whether `docker` could be
      spawned. Only a missing project, a line the store refuses, a `docker`
      that cannot be spawned, a failed argument check and an unknown
      command end `main` with an error. */
  predicate Succeeds(c: Command, t: Snapshot, embed: Value -> Embedding,
                     input: seq<string>, spawned: bool, childOut: seq<string>, childErr: seq<string>)
  {
    match c
    case StreamsAdd(projectId, _, _, _) => projectId in ProjectIds(t.projects)
    case Ingesting(streamId) =>
      AllStored(t, McpServer.CliPolicy(t.streams, embed, Ok(streamId)), LineEntries(input, Obj([])))
    case Attaching(streamId, _) =>
      spawned && AllStored(t, McpServer.CliPolicy(t.streams, embed, Ok(streamId)), AttachEntries(childOut, childErr))
    case Thrown(_) => false
    case UnknownCommand => false
    case _ => true
  }

  /** While no vector sits at or above the next rowid, `ingest` and
      `attach` complete exactly when the store accepts every line they
      read. */
  lemma {:induction false} SucceedsWhenAccepted(c: Command, t: Snapshot, embed: Value -> Embedding,
                                                input: seq<string>, spawned: bool,
                                                childOut: seq<string>, childErr: seq<string>)
    requires NoVectorAhead(t.logs, t.vectors)
    ensures c.Ingesting? ==>
              (Succeeds(c, t, embed, input, spawned, childOut, childErr) <==>
                 forall e :: e in LineEntries(input, Obj([])) ==> McpServer.Accepted(t.streams, embed, Ok(c.streamId), e))
    ensures c.Attaching? ==>
              (Succeeds(c, t, embed, input, spawned, childOut, childErr) <==>
                 spawned && forall e :: e in AttachEntries(childOut, childErr) ==>
                                          McpServer.Accepted(t.streams, embed, Ok(c.streamId), e))
  {
    if c.Ingesting? {
      AllStoredAccepted(t, McpServer.CliPolicy(t.streams, embed, Ok(c.streamId)), LineEntries(input, Obj([])));
    } else if c.Attaching? {
      AllStoredAccepted(t, McpServer.CliPolicy(t.streams, embed, Ok(c.streamId)), AttachEntries(childOut, childErr));
    }
  }

  /** `main` over the given store. `input` is standard input for `ingest`;
      `spawned` says whether `docker` could be started for `attach`, and
      `childOut` and `childErr` are then the lines of `docker logs -f`. The
      exit status is 1 exactly when the command fails; the store is closed
      only after a command that completes, and never by `start` or
      `stdio`, whose servers keep running. */
  method Run(db: CliDb.DbService, args: Args, input: seq<string>, spawned: bool,
             childOut: seq<string>, childErr: seq<string>)
    returns (o: Outcome)
    requires db.db.Valid()
    modifies db.db`projects, db.db`streams, db.db`config, db.db`logs, db.db`vectors, db.db`draws
    ensures db.db.Valid()
    ensures o.status == if Succeeds(Plan(args), old(db.db.State()), db.embed, input, spawned, childOut, childErr)
                        then 0 else 1
    ensures o.closed <==> o.status == 0 && !(Plan(args).Usage? || Plan(args).Start? || Plan(args).Stdio?)
    ensures Plan(args).Usage? || Plan(args).Thrown? || Plan(args).UnknownCommand? ==> db.db.State() == old(db.db.State())
  {
    var c := Plan(args);
    if c.Usage? {
      return Outcome(0, false);
    }
    if c.Thrown? || c.UnknownCommand? {
      return Outcome(1, false);
    }
    var status := Perform(db, c, input, spawned, childOut, childErr);
    return Outcome(status, status == 0 && !(c.Start? || c.Stdio?));
  }

  /** The `switch` of `main` once the arguments are checked: what each
      command changes in the store, when it completes and when it
      fails. */
  method Perform(db: CliDb.DbService, c: Command, input: seq<string>, spawned: bool,
                 childOut: seq<string>, childErr: seq<string>)
    returns (status: nat)
    requires db.db.Valid() && !(c.Usage? || c.Thrown? || c.UnknownCommand?)
    requires c.StreamsAdd? ==> Plain(c.config)
    modifies db.db`projects, db.db`streams, db.db`config, db.db`logs, db.db`vectors, db.db`draws
    ensures db.db.Valid()
    ensures status == if Succeeds(c, old(db.db.State()), db.embed, input, spawned, childOut, childErr) then 0 else 1
    ensures c.ProjectsAdd? ==>
              && |db.db.projects| == |old(db.db.projects)| + 1
              && db.db.projects[|old(db.db.projects)|].name == c.name
    ensures c.StreamsAdd? && status == 0 ==>
              && |db.db.streams| == |old(db.db.streams)| + 1
              && exists s: Stream :: && db.GetStream(s.id) == Some(s) && s.id !in old(StreamIds(db.db.streams))
                                     && s.projectId == Some(c.projectId) && s.kind == c.kind && s.name == c.name
                                     && s.config == Parsed(c.config)
    ensures c.StreamsAdd? && status == 1 ==> db.db.streams == old(db.db.streams)
    ensures c.Ingesting? ==>
              var t := old(db.db.State());
              var p := McpServer.CliPolicy(t.streams, db.embed, Ok(c.streamId));
              && (status == 0 ==> Appended(t.logs, db.db.logs, Ok(c.streamId), LineEntries(input, Obj([])), CliSqlite))
              && (status == 1 ==> Refused(t, p, Ok(c.streamId), LineEntries(input, Obj([])), db.db.logs))
    ensures c.Attaching? ==>
              var t := old(db.db.State());
              var p := McpServer.CliPolicy(t.streams, db.embed, Ok(c.streamId));
              && (!spawned ==> db.db.logs == t.logs)
              && (status == 0 ==> Appended(t.logs, db.db.logs, Ok(c.streamId), AttachEntries(childOut, childErr), CliSqlite))
              && (status == 1 && spawned ==> Refused(t, p, Ok(c.streamId), AttachEntries(childOut, childErr), db.db.logs))
    ensures !(c.ProjectsAdd? || c.StreamsAdd? || c.Ingesting? || c.Attaching?) ==> db.db.State() == old(db.db.State())
  {
    status := 0;
    if c.ProjectsAdd? {
      var p := db.CreateProject(c.name);
    } else if c.StreamsAdd? {
      var s := db.CreateStream(Some(c.projectId), c.kind, c.name, c.config);
      if s.Err? {
        status := 1;
      } else {
        assert db.GetStream(s.value.id) == Some(s.value);
      }
    } else if c.Ingesting? {
      var stored := StoreLines(db, c.streamId, input, Obj([]));
      status := if stored.Ok? then 0 else 1;
    } else if c.Attaching? {
      status := Attach(db, c.streamId, spawned, childOut, childErr);
    }
  }

  /** `attach`: `docker logs -f` is spawned (a `docker` that cannot be
      started throws), then both of its streams are read, each line stored
      with the stream it came from. The two loops run concurrently in the
      code; here the standard output is stored before the standard error.
      When a line is refused, the lines stored before it stay stored. */
  method Attach(db: CliDb.DbService, streamId: string, spawned: bool, childOut: seq<string>, childErr: seq<string>)
    returns (status: nat)
    requires db.db.Valid()
    modifies db.db`config, db.db`logs, db.db`vectors, db.db`draws
    ensures db.db.Valid() && db.db.streams == old(db.db.streams) && db.db.projects == old(db.db.projects)
    ensures var t := old(db.db.State());
            var p := McpServer.CliPolicy(t.streams, db.embed, Ok(streamId));
            var kept := AttachEntries(childOut, childErr);
      && (status == 0 || status == 1)
      && (status == 0 <==> spawned && AllStored(t, p, kept))
      && (!spawned ==> db.db.logs == t.logs)
      && (status == 0 ==> Appended(t.logs, db.db.logs, Ok(streamId), kept, CliSqlite))
      && (status == 1 && spawned ==> Refused(t, p, Ok(streamId), kept, db.db.logs))
  {
    if !spawned {
      return 1;
    }
    ghost var t := db.db.State();
    ghost var p := McpServer.CliPolicy(t.streams, db.embed, Ok(streamId));
    ghost var a := LineEntries(childOut, SourceMetadata("STDOUT"));
    ghost var b := LineEntries(childErr, SourceMetadata("STDERR"));
    var out := StoreLines(db, streamId, childOut, SourceMetadata("STDOUT"));
    if out.Err? {
      RefusedPrefix(t, p, Ok(streamId), a, b, db.db.logs);
      if AllStored(t, p, a + b) {
        AllStoredPrefix(t, p, a, a + b);
      }
      return 1;
    }
    ghost var t2 := db.db.State();
    assert McpServer.CliPolicy(t2.streams, db.embed, Ok(streamId)) == p;
    var err := StoreLines(db, streamId, childErr, SourceMetadata("STDERR"));
    AllStoredBoth(t, t2, p, Ok(streamId), a, b);
    if err.Err? {
      RefusedAfter(t, t2, p, Ok(streamId), a, b, db.db.logs);
      return 1;
    }
    ProgressedBoth(t, t2, db.db.logs, db.db.vectors, Ok(streamId), a, b, CliSqlite);
    return 0;
  }
}
