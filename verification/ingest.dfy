/** The entry normalisation both ingest endpoints share
    (packages/core/src/api/server.ts and cli/src/mcp/server.ts): the
    `logs` field of the request body becomes a list of entries, and each
    entry the content and metadata handed to `addLog`. */
module Ingest {
  import opened Wrappers
  import opened Json
  import opened Tables

  /** What `addLog` receives for one entry. */
  datatype Entry = Entry(content: Value, metadata: Value)

  /** `Array.isArray(logs) ? logs : [logs]`. */
  function Entries(logs: Value): seq<Value> {
    if logs.Arr? then logs.items else [logs]
  }

  /** One entry: a string is its own content with metadata `{}`; an object
      or array (`typeof "object"`) gives its `content`, else its JSON text,
      and its `metadata`, else `{}`; `null` throws on `log.content`; any
      other value gives the empty content that is then skipped. */
  function Normalised(log: Value): (r: Result<Entry>)
    ensures r.Err? <==> log.Null?
    ensures log.Null? ==> r == Err(ReadError(Null, "content"))
    ensures r.Ok? ==> Truthy(r.value.metadata)
    ensures r.Ok? ==> (Truthy(r.value.content) <==> (log.Str? && log.s != "") || log.Obj? || log.Arr?)
    ensures log.Str? ==> r == Ok(Entry(log, Obj([])))
    ensures (log.Obj? || log.Arr?) && Truthy(Field(log, "content")) ==> r.value.content == Field(log, "content")
    ensures (log.Obj? || log.Arr?) && !Truthy(Field(log, "content")) ==> r.value.content == Str(Serialize(log))
    ensures (log.Obj? || log.Arr?) && Truthy(Field(log, "metadata")) ==> r.value.metadata == Field(log, "metadata")
  {
    match log
    case Str(_) => Ok(Entry(log, Obj([])))
    case Null => Err(ReadError(log, "content"))
    case Obj(_) => Ok(Entry(Or(Field(log, "content"), Str(Serialize(log))), Or(Field(log, "metadata"), Obj([]))))
    case Arr(_) => Ok(Entry(Or(Field(log, "content"), Str(Serialize(log))), Or(Field(log, "metadata"), Obj([]))))
    case _ => Ok(Entry(Str(""), Obj([])))
  }

  /** The entries the loop hands to `addLog`, in order: those whose content
      is truthy; an `Err` when an entry is `null`. */
  function Normalise(entries: seq<Value>): (r: Result<seq<Entry>>)
    ensures r.Ok? <==> forall i :: 0 <= i < |entries| ==> !entries[i].Null?
    ensures r.Ok? ==> |r.value| <= |entries|
    ensures r.Ok? ==> forall e :: e in r.value ==> Truthy(e.content) && Truthy(e.metadata)
  {
    if entries == [] then Ok([])
    else
      var init, last := entries[..|entries| - 1], entries[|entries| - 1];
      assert forall i :: 0 <= i < |init| ==> init[i] == entries[i];
      match Normalise(init)
      case Err(e) => Err(e)
      case Ok(kept) =>
        match Normalised(last)
        case Err(e) => Err(e)
        case Ok(entry) => Ok(if Truthy(entry.content) then kept + [entry] else kept)
  }

  /** What a prefix of the list yields is a prefix of what the whole list
      yields. */
  lemma {:induction false} NormalisePrefix(entries: seq<Value>, j: nat)
    requires j <= |entries| && Normalise(entries).Ok?
    ensures Normalise(entries[..j]).Ok?
    ensures Normalise(entries[..j]).value <= Normalise(entries).value
    decreases |entries|
  {
    if j < |entries| {
      var init := entries[..|entries| - 1];
      assert init[..j] == entries[..j];
      NormalisePrefix(init, j);
    } else {
      assert entries[..j] == entries;
    }
  }

  /** A list of non-empty strings is stored line by line, each with
      metadata `{}`. */
  lemma {:induction false} NormaliseStrings(entries: seq<Value>)
    requires forall i :: 0 <= i < |entries| ==> entries[i].Str? && entries[i].s != ""
    ensures Normalise(entries).Ok? && |Normalise(entries).value| == |entries|
    ensures forall i :: 0 <= i < |entries| ==> Normalise(entries).value[i] == Entry(entries[i], Obj([]))
  {
    if entries != [] {
      var init, last := entries[..|entries| - 1], entries[|entries| - 1];
      assert forall i :: 0 <= i < |init| ==> init[i] == entries[i];
      NormaliseStrings(init);
      assert Normalised(last) == Ok(Entry(last, Obj([]))) && Truthy(last);
      assert Normalise(entries) == Ok(Normalise(init).value + [Entry(last, Obj([]))]);
    }
  }

  // ---------------------------------------------------------------------
  // The rows `addLog` leaves behind

  /** A stored row carries the entry: its stream, its content as the
      column holds it (bound third of the insert's four parameters, so a
      number in the text the store's driver gives it, and on the server a
      one-element array as its element), and its metadata as read back
      from JSON. */
  predicate Matches(row: LogRow, streamId: Result<string>, e: Entry, driver: Driver) {
    && streamId == Ok(row.streamId)
    && BindArgument(e.content, "logs.content", 1, driver) == Ok(row.content)
    && row.metadata == Stored(e.metadata)
  }

  /** `after` is `before` followed by one row per entry, in order. */
  predicate Appended(before: seq<LogRow>, after: seq<LogRow>, streamId: Result<string>, kept: seq<Entry>, driver: Driver) {
    && |after| == |before| + |kept|
    && after[..|before|] == before
    && forall i :: 0 <= i < |kept| ==> Matches(after[|before| + i], streamId, kept[i], driver)
  }

  lemma {:induction false} AppendedNothing(logs: seq<LogRow>, streamId: Result<string>, driver: Driver)
    ensures Appended(logs, logs, streamId, [], driver)
  {
    assert logs[..|logs|] == logs;
  }

  lemma {:induction false} AppendedOne(before: seq<LogRow>, mid: seq<LogRow>, after: seq<LogRow>,
                    streamId: Result<string>, kept: seq<Entry>, e: Entry, driver: Driver)
    requires Appended(before, mid, streamId, kept, driver)
    requires |after| == |mid| + 1 && after[..|mid|] == mid && Matches(after[|mid|], streamId, e, driver)
    ensures Appended(before, after, streamId, kept + [e], driver)
  {
    assert after[..|before|] == mid[..|before|];
    forall i | 0 <= i < |kept| ensures Matches(after[|before| + i], streamId, (kept + [e])[i], driver) {
      assert after[|before| + i] == mid[|before| + i];
    }
  }

  lemma {:induction false} AppendedBoth(a: seq<LogRow>, b: seq<LogRow>, c: seq<LogRow>,
                     streamId: Result<string>, k1: seq<Entry>, k2: seq<Entry>, driver: Driver)
    requires Appended(a, b, streamId, k1, driver) && Appended(b, c, streamId, k2, driver)
    ensures Appended(a, c, streamId, k1 + k2, driver)
  {
    assert c[..|a|] == b[..|a|];
    forall i | 0 <= i < |k1 + k2| ensures Matches(c[|a| + i], streamId, (k1 + k2)[i], driver) {
      if i < |k1| {
        assert c[|a| + i] == b[|a| + i];
      } else {
        assert c[|a| + i] == c[|b| + (i - |k1|)];
      }
    }
  }

  // ---------------------------------------------------------------------
  // A run of `addLog` calls

  /** A run of `addLog` calls from the store `t` has stored `kept` and
      reached `logs` and `vectors`: one row per entry after `t`'s, each
      having taken the next rowid, and every vector the run added sitting
      below the next rowid. */
  predicate Progressed(t: Snapshot, logs: seq<LogRow>, vectors: set<nat>, streamId: Result<string>, kept: seq<Entry>, driver: Driver) {
    && Appended(t.logs, logs, streamId, kept, driver)
    && NextRowid(logs) == NextRowid(t.logs) + |kept|
    && t.vectors <= vectors
    && forall v :: v in vectors && v !in t.vectors ==> v < NextRowid(logs)
  }

  lemma {:induction false} ProgressedNothing(t: Snapshot, streamId: Result<string>, driver: Driver)
    ensures Progressed(t, t.logs, t.vectors, streamId, [], driver)
  {
    AppendedNothing(t.logs, streamId, driver);
  }

  /** One more entry stored: its row takes the next rowid, and its vector,
      if any, that rowid too. */
  lemma {:induction false} ProgressedOne(t: Snapshot, logs: seq<LogRow>, vectors: set<nat>,
                                         logs': seq<LogRow>, vectors': set<nat>,
                                         streamId: Result<string>, kept: seq<Entry>, e: Entry, driver: Driver)
    requires Progressed(t, logs, vectors, streamId, kept, driver)
    requires |logs'| == |logs| + 1 && logs'[..|logs|] == logs && Matches(logs'[|logs|], streamId, e, driver)
    requires NextRowid(logs') == NextRowid(logs) + 1
    requires vectors' == vectors || vectors' == vectors + {NextRowid(logs)}
    ensures Progressed(t, logs', vectors', streamId, kept + [e], driver)
  {
    AppendedOne(t.logs, logs, logs', streamId, kept, e, driver);
  }

  /** Two runs, the second starting where the first ended, make one run. */
  lemma {:induction false} ProgressedBoth(t: Snapshot, t2: Snapshot, logs: seq<LogRow>, vectors: set<nat>,
                                          streamId: Result<string>, k1: seq<Entry>, k2: seq<Entry>, driver: Driver)
    requires Progressed(t, t2.logs, t2.vectors, streamId, k1, driver)
    requires Progressed(t2, logs, vectors, streamId, k2, driver)
    ensures Progressed(t, logs, vectors, streamId, k1 + k2, driver)
  {
    AppendedBoth(t.logs, t2.logs, logs, streamId, k1, k2, driver);
  }

  /** At or above the next rowid, the vectors are still those of `t`: the
      rowid `k` past the next one is taken exactly when the rowid as far
      past `t`'s next one, plus one per stored entry, was taken in `t`. */
  lemma {:induction false} ProgressedAhead(t: Snapshot, logs: seq<LogRow>, vectors: set<nat>,
                                           streamId: Result<string>, kept: seq<Entry>, k: nat, driver: Driver)
    requires Progressed(t, logs, vectors, streamId, kept, driver)
    ensures NextRowid(logs) + k in vectors <==> NextRowid(t.logs) + |kept| + k in t.vectors
  {
  }

  // ---------------------------------------------------------------------
  // Which entries a run stores

  /** What a store's `addLog` asks of an entry: `accepts` says whether its
      row can be written at all (the stream exists, the content binds, and
      whatever else that store checks); `indexes` says whether the entry's
      embedding then gets a vector row, which needs the new log's rowid to
      be free in `vec_logs`; `driver` is the driver it binds its values with. */
  datatype Policy = Policy(accepts: Entry -> bool, indexes: Entry -> bool, driver: Driver)

  /** Entry `i` of a run of `addLog` calls from the store `t` is stored: it
      is accepted and, when it gets a vector, the rowid it takes (`i` past
      the store's next rowid, one for each entry stored before it) is free
      in `vec_logs`. */
  predicate StoredAt(t: Snapshot, p: Policy, e: Entry, i: nat) {
    p.accepts(e) && (p.indexes(e) ==> NextRowid(t.logs) + i !in t.vectors)
  }

  /** Every entry of the run is stored, each at its place in the run. */
  predicate AllStored(t: Snapshot, p: Policy, kept: seq<Entry>) {
    forall i :: 0 <= i < |kept| ==> StoredAt(t, p, kept[i], i)
  }

  /** With no vector at or above the next rowid, a run is stored exactly
      when each of its entries is accepted. */
  lemma {:induction false} AllStoredAccepted(t: Snapshot, p: Policy, kept: seq<Entry>)
    requires NoVectorAhead(t.logs, t.vectors)
    ensures AllStored(t, p, kept) <==> forall e :: e in kept ==> p.accepts(e)
  {
    if forall e :: e in kept ==> p.accepts(e) {
      forall i | 0 <= i < |kept| ensures StoredAt(t, p, kept[i], i) {
        assert kept[i] in kept;
        assert NextRowid(t.logs) + i !in t.vectors;
      }
    } else {
      var e :| e in kept && !p.accepts(e);
      var i :| 0 <= i < |kept| && kept[i] == e;
      assert !StoredAt(t, p, kept[i], i);
    }
  }

  lemma {:induction false} AllStoredSnoc(t: Snapshot, p: Policy, kept: seq<Entry>, e: Entry)
    requires AllStored(t, p, kept) && StoredAt(t, p, e, |kept|)
    ensures AllStored(t, p, kept + [e])
  {
    forall i | 0 <= i < |kept| + 1 ensures StoredAt(t, p, (kept + [e])[i], i) {
      if i < |kept| {
        assert (kept + [e])[i] == kept[i];
      }
    }
  }

  /** What holds of a run holds of its first entries. */
  lemma {:induction false} AllStoredPrefix(t: Snapshot, p: Policy, a: seq<Entry>, b: seq<Entry>)
    requires AllStored(t, p, b) && a <= b
    ensures AllStored(t, p, a)
  {
    forall i | 0 <= i < |a| ensures StoredAt(t, p, a[i], i) {
      assert a[i] == b[i];
    }
  }

  /** After a run from `t` that stored `a`, an entry takes place `k` of a
      second run exactly when it takes place `|a| + k` of the whole run. */
  lemma {:induction false} StoredAtAfter(t: Snapshot, t2: Snapshot, p: Policy, streamId: Result<string>,
                                         a: seq<Entry>, e: Entry, k: nat)
    requires Progressed(t, t2.logs, t2.vectors, streamId, a, p.driver)
    ensures StoredAt(t2, p, e, k) <==> StoredAt(t, p, e, |a| + k)
  {
    ProgressedAhead(t, t2.logs, t2.vectors, streamId, a, k, p.driver);
  }

  /** A second run, started where a first one from `t` ended, stores what
      the whole run from `t` stores after the first run's entries. */
  lemma {:induction false} AllStoredBoth(t: Snapshot, t2: Snapshot, p: Policy, streamId: Result<string>,
                                         a: seq<Entry>, b: seq<Entry>)
    requires Progressed(t, t2.logs, t2.vectors, streamId, a, p.driver)
    ensures AllStored(t, p, a + b) <==> AllStored(t, p, a) && AllStored(t2, p, b)
  {
    forall j | 0 <= j < |b| ensures StoredAt(t2, p, b[j], j) <==> StoredAt(t, p, b[j], |a| + j) {
      StoredAtAfter(t, t2, p, streamId, a, b[j], j);
    }
    if AllStored(t, p, a + b) {
      AllStoredPrefix(t, p, a, a + b);
      forall j | 0 <= j < |b| ensures StoredAt(t2, p, b[j], j) {
        assert (a + b)[|a| + j] == b[j];
      }
    }
    if AllStored(t, p, a) && AllStored(t2, p, b) {
      forall i | 0 <= i < |a + b| ensures StoredAt(t, p, (a + b)[i], i) {
        if i < |a| {
          assert (a + b)[i] == a[i];
        } else {
          assert (a + b)[i] == b[i - |a|];
        }
      }
    }
  }

  /** A run over `kept` from the store `t` stopped at entry `k`: the entries
      before it were stored, as the rows after `t`'s in `after`, and entry
      `k` was refused. */
  predicate RefusedAt(t: Snapshot, p: Policy, streamId: Result<string>, kept: seq<Entry>, after: seq<LogRow>, k: nat) {
    && k < |kept|
    && AllStored(t, p, kept[..k])
    && Appended(t.logs, after, streamId, kept[..k], p.driver)
    && !StoredAt(t, p, kept[k], k)
  }

  ghost predicate Refused(t: Snapshot, p: Policy, streamId: Result<string>, kept: seq<Entry>, after: seq<LogRow>) {
    exists k :: RefusedAt(t, p, streamId, kept, after, k)
  }

  /** A run that stops within its first entries stops within any longer
      run that opens with them. */
  lemma {:induction false} RefusedPrefix(t: Snapshot, p: Policy, streamId: Result<string>,
                                         a: seq<Entry>, b: seq<Entry>, after: seq<LogRow>)
    requires Refused(t, p, streamId, a, after)
    ensures Refused(t, p, streamId, a + b, after)
  {
    var k: nat :| RefusedAt(t, p, streamId, a, after, k);
    assert k < |a|;
    assert (a + b)[..k] == a[..k] && (a + b)[k] == a[k];
    assert RefusedAt(t, p, streamId, a + b, after, k);
  }

  /** A second run, started where a first one from `t` ended after storing
      all of `a`, that stops at an entry of `b`, is the whole run from `t`
      stopping there. */
  lemma {:induction false} RefusedAfter(t: Snapshot, t2: Snapshot, p: Policy, streamId: Result<string>,
                                        a: seq<Entry>, b: seq<Entry>, after: seq<LogRow>)
    requires Progressed(t, t2.logs, t2.vectors, streamId, a, p.driver) && AllStored(t, p, a)
    requires Refused(t2, p, streamId, b, after)
    ensures Refused(t, p, streamId, a + b, after)
  {
    var k: nat :| RefusedAt(t2, p, streamId, b, after, k);
    var all := a + b;
    assert all[..|a| + k] == a + b[..k] && all[|a| + k] == b[k];
    AllStoredBoth(t, t2, p, streamId, a, b[..k]);
    assert AllStored(t, p, all[..|a| + k]);
    AppendedBoth(t.logs, t2.logs, after, streamId, a, b[..k], p.driver);
    assert Appended(t.logs, after, streamId, all[..|a| + k], p.driver);
    StoredAtAfter(t, t2, p, streamId, a, b[k], k);
    assert RefusedAt(t, p, streamId, all, after, |a| + k);
  }

  /** The loop over the raw `entries` of a request stopped at entry `j`:
      what `entries[..j]` keeps was stored, as the rows after `t`'s in
      `after`, and entry `j` is `null` (reading its content throws) or has
      content that the store refused. */
  predicate HaltedAt(t: Snapshot, p: Policy, streamId: Result<string>, entries: seq<Value>, after: seq<LogRow>, j: nat) {
    && j < |entries|
    && Normalise(entries[..j]).Ok?
    && var kept := Normalise(entries[..j]).value;
       && AllStored(t, p, kept)
       && Appended(t.logs, after, streamId, kept, p.driver)
       && (|| entries[j].Null?
           || (Truthy(Normalised(entries[j]).value.content) && !StoredAt(t, p, Normalised(entries[j]).value, |kept|)))
  }

  ghost predicate Halted(t: Snapshot, p: Policy, streamId: Result<string>, entries: seq<Value>, after: seq<LogRow>) {
    exists j :: HaltedAt(t, p, streamId, entries, after, j)
  }

  /** A loop that stopped at entry `j` has not stored the whole request:
      either the request holds a `null` or its kept entry at the place of
      `j` is one the store refused. */
  lemma {:induction false} HaltedNotAllStored(t: Snapshot, p: Policy, streamId: Result<string>,
                                              entries: seq<Value>, after: seq<LogRow>, j: nat)
    requires HaltedAt(t, p, streamId, entries, after, j)
    ensures Halted(t, p, streamId, entries, after)
    ensures !(Normalise(entries).Ok? && AllStored(t, p, Normalise(entries).value))
  {
    if Normalise(entries).Ok? && !entries[j].Null? {
      var kept := Normalise(entries[..j]).value;
      var entry := Normalised(entries[j]).value;
      assert entries[..j + 1][..j] == entries[..j] && entries[..j + 1][j] == entries[j];
      assert Normalise(entries[..j + 1]) == Ok(kept + [entry]);
      NormalisePrefix(entries, j + 1);
      assert Normalise(entries).value[|kept|] == entry;
    }
  }
}
