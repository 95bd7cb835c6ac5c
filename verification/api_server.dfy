/** The HTTP API of the server package (packages/core/src/api/server.ts):
    OTLP log ingestion at `/v1/logs` (the JSON encoding of OTLP/HTTP), the
    plain ingest endpoint `/api/ingest`, and paging for `/api/logs`.

    Both ingest endpoints take a bearer token in the `Authorization` header
    (section 2.1 of RFC 6750). The OTLP endpoint answers failures with a
    `Status` object whose `code` is the gRPC status the "Failures" part of
    the OpenTelemetry Protocol (OTLP) specification prescribes: 16
    (UNAUTHENTICATED), 3 (INVALID_ARGUMENT) and 13 (INTERNAL). */
module ApiServer {
  import opened Wrappers
  import opened Strings
  import opened Json
  import opened Tables
  import opened Auth
  import opened Ingest
  import CoreDb

  /** A status code and the JSON (or, for `res.send`, the text) sent. */
  datatype Response = Response(status: nat, body: Value)

  const Unauthenticated := 16
  const InvalidArgument := 3
  const Internal := 13

  /** `{ code, message }`. */
  function Status(code: int, message: string): (r: Value)
    ensures Field(r, "code") == Num(code) && Field(r, "message") == Str(message)
  {
    var ms := [Member("code", Num(code)), Member("message", Str(message))];
    assert "message" != "code" by { assert "message"[0] != "code"[0]; }
    assert ms[..|ms| - 1] == [Member("code", Num(code))];
    assert Get(ms, "code") == Get([Member("code", Num(code))], "code") == Num(code);
    Obj(ms)
  }

  /** `{ error: String(e) }`. */
  function Failure(e: string): Value {
    Obj([Member("error", Str(e))])
  }

  // ---------------------------------------------------------------------
  // Authentication

  const BearerPrefix := "Bearer "

  /** `authHeader.split(" ")[1]`; `None` is the `undefined` of a header
      with no space. */
  function BearerToken(header: string): (r: Option<string>)
    ensures r.Some? ==> ' ' !in r.value
  {
    var parts := Split(header, ' ');
    if |parts| < 2 then None
    else
      assert ' ' !in parts[1] by {
        SplitPiecesFree(header, ' ');
        assert parts[1] in parts;
      }
      Some(parts[1])
  }

  /** The token after "Bearer " is read back whole. */
  lemma {:induction false} BearerTokenOf(token: string)
    requires ' ' !in token
    ensures BearerToken(BearerPrefix + token) == Some(token)
  {
    assert BearerPrefix + token == "Bearer" + [' '] + token;
    assert ' ' !in "Bearer";
    SplitFirst("Bearer", token, ' ');
    SplitWithout(token, ' ');
  }

  /** What the header checks conclude. */
  datatype Credential = NoHeader | Invalid | Subject(sub: Value)

  /** The checks both ingest endpoints start with: a header that starts with
      "Bearer ", then `verifyToken` of its second space-separated piece,
      which must give a truthy stream id. */
  function Authenticate(header: Option<string>, jwt: Jwt, secret: string): (r: Credential)
    ensures r.NoHeader? <==> header.None? || !StartsWith(header.value, BearerPrefix)
    ensures r.Subject? ==> && Truthy(r.sub) && BearerToken(header.value).Some?
                           && Verified(jwt, secret, BearerToken(header.value).value) == Some(r.sub)
  {
    if header.None? || !StartsWith(header.value, BearerPrefix) then NoHeader
    else
      match BearerToken(header.value)
      case None => Invalid
      case Some(token) =>
        match Verified(jwt, secret, token)
        case None => Invalid
        case Some(sub) => Subject(sub)
  }

  /** A stream token presented as "Bearer <token>" authenticates as its
      stream. */
  lemma {:induction false} StreamTokenAuthenticates(jwt: Jwt, secret: string, streamId: string)
    requires Sound(jwt) && streamId != ""
    requires ' ' !in jwt.sign(StreamClaims(streamId), secret, Algorithm)
    ensures Authenticate(Some(BearerPrefix + jwt.sign(StreamClaims(streamId), secret, Algorithm)), jwt, secret)
            == Subject(Str(streamId))
  {
    var token := jwt.sign(StreamClaims(streamId), secret, Algorithm);
    BearerTokenOf(token);
    StreamTokenRoundTrip(jwt, secret, streamId);
    assert (BearerPrefix + token)[..|BearerPrefix|] == BearerPrefix;
  }

  // ---------------------------------------------------------------------
  // OTLP attributes

  /** The value kept for an attribute's `value`: the first of
      `stringValue`, `intValue` (through `parseInt`), `doubleValue`,
      `boolValue`, `arrayValue` and `kvlistValue` that is present, else the
      value itself. */
  function AttributeValue(val: Value): Value {
    if !Field(val, "stringValue").Undefined? then Field(val, "stringValue")
    else if !Field(val, "intValue").Undefined? then ParseInt(Field(val, "intValue"))
    else if !Field(val, "doubleValue").Undefined? then Field(val, "doubleValue")
    else if !Field(val, "boolValue").Undefined? then Field(val, "boolValue")
    else if !Field(val, "arrayValue").Undefined? then Field(val, "arrayValue")
    else if !Field(val, "kvlistValue").Undefined? then Field(val, "kvlistValue")
    else val
  }

  /** OTLP/JSON writes 64-bit integers as decimal strings; such an
      `intValue` is kept as the number it spells. */
  lemma {:induction false} IntAttribute(n: int)
    ensures AttributeValue(Obj([Member("intValue", Str(IntToString(n)))])) == Num(n)
  {
    var ms := [Member("intValue", Str(IntToString(n)))];
    assert "stringValue"[0] != "intValue"[0];
    assert Get(ms, "stringValue") == Get(ms[..0], "stringValue");
    ParseIntOfIntToString(n);
  }

  /** One turn of the loop in `parseOtlpAttributes`: an entry with a truthy
      `key` and `value` sets that key (a later duplicate overwrites an
      earlier one, every other key is kept); any other entry is skipped;
      `null` or `undefined` throws on `attr.key`. */
  function Attribute(acc: seq<Member>, attr: Value): (r: Result<seq<Member>>)
    ensures r.Err? <==> Nullish(attr)
    ensures r.Ok? && !(Truthy(Field(attr, "key")) && Truthy(Field(attr, "value"))) ==> r.value == acc
    ensures r.Ok? && Truthy(Field(attr, "key")) && Truthy(Field(attr, "value")) ==>
              forall k :: Get(r.value, k) == if k == ToStr(Field(attr, "key"))
                                             then AttributeValue(Field(attr, "value")) else Get(acc, k)
  {
    if Nullish(attr) then Err(ReadError(attr, "key"))
    else
      var key, val := Field(attr, "key"), Field(attr, "value");
      if Truthy(key) && Truthy(val) then
        var r := Set(acc, ToStr(key), AttributeValue(val));
        assert forall k :: Get(r, k) == if k == ToStr(key) then AttributeValue(val) else Get(acc, k) by {
          forall k ensures Get(r, k) == if k == ToStr(key) then AttributeValue(val) else Get(acc, k) {
            SetGet(acc, ToStr(key), AttributeValue(val), k);
          }
        }
        Ok(r)
      else Ok(acc)
  }

  /** The loop over the remaining entries, from the result so far. */
  function AttributesFrom(acc: seq<Member>, items: seq<Value>): Result<seq<Member>>
    decreases |items|
  {
    if items == [] then Ok(acc)
    else
      match Attribute(acc, items[0])
      case Err(e) => Err(e)
      case Ok(acc') => AttributesFrom(acc', items[1..])
  }

  /** `parseOtlpAttributes(attributes)`: `{}` for anything but an array. */
  function Attributes(attributes: Value): (r: Result<seq<Member>>)
    ensures !attributes.Arr? ==> r == Ok([])
    ensures attributes.Arr? && attributes.items == [] ==> r == Ok([])
  {
    if attributes.Arr? then AttributesFrom([], attributes.items) else Ok([])
  }

  lemma {:induction false} AttributesFromSnoc(acc: seq<Member>, items: seq<Value>, attr: Value)
    ensures AttributesFrom(acc, items + [attr]) == match AttributesFrom(acc, items)
                                                  case Err(e) => Err(e)
                                                  case Ok(a) => Attribute(a, attr)
    decreases |items|
  {
    if items == [] {
      assert [attr][1..] == [];
    } else {
      assert (items + [attr])[0] == items[0] && (items + [attr])[1..] == items[1..] + [attr];
      match Attribute(acc, items[0])
      case Err(_) =>
      case Ok(acc') => AttributesFromSnoc(acc', items[1..], attr);
    }
  }

  /** Of two entries with the same key the later one wins: whatever came
      before, the last entry's value is the one kept. */
  lemma {:induction false} LastAttributeWins(items: seq<Value>, attr: Value)
    requires Truthy(Field(attr, "key")) && Truthy(Field(attr, "value"))
    requires Attributes(Arr(items + [attr])).Ok?
    ensures Get(Attributes(Arr(items + [attr])).value, ToStr(Field(attr, "key"))) == AttributeValue(Field(attr, "value"))
  {
    AttributesFromSnoc([], items, attr);
  }

  /** The loop itself, filling `result` attribute by attribute. */
  method ParseOtlpAttributes(attributes: Value) returns (r: Result<seq<Member>>)
    ensures r == Attributes(attributes)
  {
    if !attributes.Arr? {
      return Ok([]);
    }
    var items := attributes.items;
    var result: seq<Member> := [];
    var i := 0;
    while i < |items|
      invariant 0 <= i <= |items|
      invariant AttributesFrom(result, items[i..]) == AttributesFrom([], items)
    {
      var attr := items[i];
      assert items[i..][0] == attr && items[i..][1..] == items[i + 1..];
      if Nullish(attr) {
        return Err(ReadError(attr, "key"));
      }
      var key, val := Field(attr, "key"), Field(attr, "value");
      if Truthy(key) && Truthy(val) {
        result := Set(result, ToStr(key), AttributeValue(val));
      }
      i := i + 1;
    }
    assert items[i..] == [];
    return Ok(result);
  }

  // ---------------------------------------------------------------------
  // OTLP records

  /** `log.body?.stringValue`, else `JSON.stringify(log.body?.kvlistValue)`,
      else a string body, else "". */
  function RecordContent(body: Value): (r: Value)
    ensures Truthy(OptProp(body, "stringValue")) ==> r == OptProp(body, "stringValue")
    ensures !Truthy(OptProp(body, "stringValue")) && Truthy(OptProp(body, "kvlistValue")) ==>
              r == Str(Serialize(OptProp(body, "kvlistValue")))
    ensures !Truthy(OptProp(body, "stringValue")) && !Truthy(OptProp(body, "kvlistValue")) ==>
              r == if body.Str? then body else Str("")
  {
    var sv, kv := OptProp(body, "stringValue"), OptProp(body, "kvlistValue");
    if Truthy(sv) then sv
    else if Truthy(kv) then Str(Serialize(kv))
    else if body.Str? then body
    else Str("")
  }

  /** `{ ...resourceAttrs, ...logAttrs, severity, scope, timestamp }`. */
  function RecordMetadata(resource: seq<Member>, attrs: seq<Member>, log: Value, scope: Value): seq<Member> {
    var spread := Assign(Assign([], resource), attrs);
    var severity := Or(Field(log, "severityText"), Field(log, "severityNumber"));
    Set(Set(Set(spread, "severity", severity), "scope", scope), "timestamp", Field(log, "timeUnixNano"))
  }

  /** In a record's metadata the log's own attributes override the
      resource's, and `severity` (text, else number), `scope` and
      `timestamp` override both. */
  lemma {:induction false} MetadataPrecedence(resource: seq<Member>, attrs: seq<Member>, log: Value, scope: Value, k: string)
    ensures var m := RecordMetadata(resource, attrs, log, scope);
      Get(m, k) == if k == "timestamp" then Field(log, "timeUnixNano")
                   else if k == "scope" then scope
                   else if k == "severity" then Or(Field(log, "severityText"), Field(log, "severityNumber"))
                   else if k in Keys(attrs) then Get(attrs, k)
                   else Get(resource, k)
  {
    var spread := Assign(Assign([], resource), attrs);
    var severity := Or(Field(log, "severityText"), Field(log, "severityNumber"));
    var m1 := Set(spread, "severity", severity);
    var m2 := Set(m1, "scope", scope);
    SetGet(m2, "timestamp", Field(log, "timeUnixNano"), k);
    SetGet(m1, "scope", scope, k);
    SetGet(spread, "severity", severity, k);
    AssignGet(Assign([], resource), attrs, k);
    AssignGet([], resource, k);
    if k !in Keys(resource) {
      GetAbsent(resource, k);
    }
  }

  /** One log record: its content and metadata; `null` or `undefined`
      throws on `log.body`, and so does a `null` attribute entry. */
  function Record(log: Value, resource: seq<Member>, scope: Value): (r: Result<Entry>)
    ensures r.Err? <==> Nullish(log) || Attributes(Field(log, "attributes")).Err?
    ensures r.Ok? ==> r.value.content == RecordContent(Field(log, "body"))
    ensures r.Ok? ==> r.value.metadata == Obj(RecordMetadata(resource, Attributes(Field(log, "attributes")).value, log, scope))
  {
    if Nullish(log) then Err(ReadError(log, "body"))
    else
      var content := RecordContent(Field(log, "body"));
      match Attributes(Field(log, "attributes"))
      case Err(e) => Err(e)
      case Ok(attrs) => Ok(Entry(content, Obj(RecordMetadata(resource, attrs, log, scope))))
  }

  /** The body of the innermost loop up to `addLog`. */
  method BuildRecord(log: Value, resource: seq<Member>, scope: Value) returns (r: Result<Entry>)
    ensures r == Record(log, resource, scope)
  {
    if Nullish(log) {
      return Err(ReadError(log, "body"));
    }
    var content := RecordContent(Field(log, "body"));
    var attrs := ParseOtlpAttributes(Field(log, "attributes"));
    if attrs.Err? {
      return Err(attrs.error);
    }
    return Ok(Entry(content, Obj(RecordMetadata(resource, attrs.value, log, scope))));
  }

  /** The innermost loop from the entries kept so far: a record with empty
      content is neither stored nor counted. */
  function RecordsFrom(kept: seq<Entry>, records: seq<Value>, resource: seq<Member>, scope: Value)
    : Result<seq<Entry>>
    decreases |records|
  {
    if records == [] then Ok(kept)
    else
      match Record(records[0], resource, scope)
      case Err(e) => Err(e)
      case Ok(e) => RecordsFrom(if Truthy(e.content) then kept + [e] else kept, records[1..], resource, scope)
  }

  /** One scope: its records when `logRecords` is truthy; `null` throws on
      `scopeLog.scope`, a truthy `logRecords` that is not iterable throws. */
  function ScopeLog(kept: seq<Entry>, scopeLog: Value, resource: seq<Member>): Result<seq<Entry>> {
    if Nullish(scopeLog) then Err(ReadError(scopeLog, "scope"))
    else
      var scope := OptProp(Field(scopeLog, "scope"), "name");
      var records := Field(scopeLog, "logRecords");
      if !Truthy(records) then Ok(kept)
      else
        match Iterate(records)
        case None => Err("TypeError: scopeLog.logRecords is not iterable")
        case Some(items) => RecordsFrom(kept, items, resource, scope)
  }

  function ScopeLogsFrom(kept: seq<Entry>, scopeLogs: seq<Value>, resource: seq<Member>): Result<seq<Entry>>
    decreases |scopeLogs|
  {
    if scopeLogs == [] then Ok(kept)
    else
      match ScopeLog(kept, scopeLogs[0], resource)
      case Err(e) => Err(e)
      case Ok(kept') => ScopeLogsFrom(kept', scopeLogs[1..], resource)
  }

  /** One resource: its attributes, then its scopes when `scopeLogs` is
      truthy. */
  function ResourceLog(kept: seq<Entry>, resourceLog: Value): Result<seq<Entry>> {
    if Nullish(resourceLog) then Err(ReadError(resourceLog, "resource"))
    else
      match Attributes(OptProp(Field(resourceLog, "resource"), "attributes"))
      case Err(e) => Err(e)
      case Ok(resource) =>
        var scopeLogs := Field(resourceLog, "scopeLogs");
        if !Truthy(scopeLogs) then Ok(kept)
        else
          match Iterate(scopeLogs)
          case None => Err("TypeError: resourceLog.scopeLogs is not iterable")
          case Some(items) => ScopeLogsFrom(kept, items, resource)
  }

  function ResourceLogsFrom(kept: seq<Entry>, resourceLogs: seq<Value>): Result<seq<Entry>>
    decreases |resourceLogs|
  {
    if resourceLogs == [] then Ok(kept)
    else
      match ResourceLog(kept, resourceLogs[0])
      case Err(e) => Err(e)
      case Ok(kept') => ResourceLogsFrom(kept', resourceLogs[1..])
  }

  /** Every record of the request with non-empty content, in order. */
  function OtlpRecords(resourceLogs: seq<Value>): Result<seq<Entry>> {
    ResourceLogsFrom([], resourceLogs)
  }

  /** One turn of the innermost loop. */
  lemma {:induction false} RecordsFromStep(kept: seq<Entry>, records: seq<Value>, i: nat, resource: seq<Member>, scope: Value)
    requires i < |records|
    ensures RecordsFrom(kept, records[i..], resource, scope)
            == match Record(records[i], resource, scope)
               case Err(e) => Err(e)
               case Ok(e) => RecordsFrom(if Truthy(e.content) then kept + [e] else kept, records[i + 1..], resource, scope)
  {
    assert records[i..][0] == records[i] && records[i..][1..] == records[i + 1..];
  }

  /** A record the store refused stops the loops right there, whatever
      the records after it hold. */
  lemma {:induction false} StoppedAtRecord(t: Snapshot, p: Policy, kept: seq<Entry>, e: Entry,
                                           records: seq<Value>, resource: seq<Member>, scope: Value)
    requires !StoredAt(t, p, e, |kept|)
    ensures StoppedBefore(t, p, kept, RecordsFrom(kept + [e], records, resource, scope))
  {
    RecordsKeepContent(kept + [e], records, resource, scope);
    StoppedAtEntry(t, p, kept, e, RecordsFrom(kept + [e], records, resource, scope));
  }

  /** Loops that kept a refused entry after `kept` stopped before it. */
  lemma {:induction false} StoppedAtEntry(t: Snapshot, p: Policy, kept: seq<Entry>, e: Entry, w: Result<seq<Entry>>)
    requires !StoredAt(t, p, e, |kept|)
    requires w.Ok? ==> kept + [e] <= w.value
    ensures StoppedBefore(t, p, kept, w)
  {
    if w.Ok? {
      assert w.value[..|kept| + 1] == kept + [e];
      assert w.value[..|kept|] == kept && w.value[|kept|] == e;
    }
  }

  /** One turn of the middle loop. */
  lemma {:induction false} ScopeLogsFromStep(kept: seq<Entry>, scopeLogs: seq<Value>, i: nat, resource: seq<Member>)
    requires i < |scopeLogs|
    ensures ScopeLogsFrom(kept, scopeLogs[i..], resource)
            == match ScopeLog(kept, scopeLogs[i], resource)
               case Err(e) => Err(e)
               case Ok(kept') => ScopeLogsFrom(kept', scopeLogs[i + 1..], resource)
  {
    assert scopeLogs[i..][0] == scopeLogs[i] && scopeLogs[i..][1..] == scopeLogs[i + 1..];
  }

  /** One turn of the outer loop. */
  lemma {:induction false} ResourceLogsFromStep(kept: seq<Entry>, resourceLogs: seq<Value>, i: nat)
    requires i < |resourceLogs|
    ensures ResourceLogsFrom(kept, resourceLogs[i..])
            == match ResourceLog(kept, resourceLogs[i])
               case Err(e) => Err(e)
               case Ok(kept') => ResourceLogsFrom(kept', resourceLogs[i + 1..])
  {
    assert resourceLogs[i..][0] == resourceLogs[i] && resourceLogs[i..][1..] == resourceLogs[i + 1..];
  }

  /** The loop only appends, and only records with content. */
  lemma {:induction false} RecordsKeepContent(kept: seq<Entry>, records: seq<Value>, resource: seq<Member>, scope: Value)
    ensures var r := RecordsFrom(kept, records, resource, scope);
            r.Ok? ==> kept <= r.value && forall i :: |kept| <= i < |r.value| ==> Truthy(r.value[i].content)
    decreases |records|
  {
    if records != [] {
      var rec := Record(records[0], resource, scope);
      if rec.Ok? {
        var next := if Truthy(rec.value.content) then kept + [rec.value] else kept;
        assert RecordsFrom(kept, records, resource, scope) == RecordsFrom(next, records[1..], resource, scope);
        RecordsKeepContent(next, records[1..], resource, scope);
        var r := RecordsFrom(next, records[1..], resource, scope);
        if r.Ok? {
          assert kept <= next <= r.value;
          forall i | |kept| <= i < |r.value| ensures Truthy(r.value[i].content) {
            if i < |next| {
              assert i == |kept| && next[i] == rec.value;
              assert r.value[i] == next[i];
            }
          }
        }
      }
    }
  }

  lemma {:induction false} ScopeLogsKeepContent(kept: seq<Entry>, scopeLogs: seq<Value>, resource: seq<Member>)
    ensures var r := ScopeLogsFrom(kept, scopeLogs, resource);
            r.Ok? ==> kept <= r.value && forall i :: |kept| <= i < |r.value| ==> Truthy(r.value[i].content)
    decreases |scopeLogs|
  {
    if scopeLogs != [] {
      var scopeLog := scopeLogs[0];
      var step := ScopeLog(kept, scopeLog, resource);
      if step.Ok? {
        if !Nullish(scopeLog) && Truthy(Field(scopeLog, "logRecords")) {
          RecordsKeepContent(kept, Iterate(Field(scopeLog, "logRecords")).value, resource,
                             OptProp(Field(scopeLog, "scope"), "name"));
        }
        ScopeLogsKeepContent(step.value, scopeLogs[1..], resource);
        var r := ScopeLogsFrom(step.value, scopeLogs[1..], resource);
        if r.Ok? {
          forall i | |kept| <= i < |r.value| ensures Truthy(r.value[i].content) {
            if i < |step.value| {
              assert r.value[i] == step.value[i];
            }
          }
        }
      }
    }
  }

  lemma {:induction false} ResourceLogsKeepContent(kept: seq<Entry>, resourceLogs: seq<Value>)
    ensures var r := ResourceLogsFrom(kept, resourceLogs);
            r.Ok? ==> kept <= r.value && forall i :: |kept| <= i < |r.value| ==> Truthy(r.value[i].content)
    decreases |resourceLogs|
  {
    if resourceLogs != [] {
      var resourceLog := resourceLogs[0];
      var step := ResourceLog(kept, resourceLog);
      if step.Ok? {
        if !Nullish(resourceLog) && Truthy(Field(resourceLog, "scopeLogs")) {
          var resource := Attributes(OptProp(Field(resourceLog, "resource"), "attributes"));
          ScopeLogsKeepContent(kept, Iterate(Field(resourceLog, "scopeLogs")).value, resource.value);
        }
        ResourceLogsKeepContent(step.value, resourceLogs[1..]);
        var r := ResourceLogsFrom(step.value, resourceLogs[1..]);
        if r.Ok? {
          forall i | |kept| <= i < |r.value| ensures Truthy(r.value[i].content) {
            if i < |step.value| {
              assert r.value[i] == step.value[i];
            }
          }
        }
      }
    }
  }

  /** Every record `/v1/logs` stores and counts has non-empty content. */
  lemma {:induction false} OtlpRecordsHaveContent(resourceLogs: seq<Value>)
    ensures OtlpRecords(resourceLogs).Ok? ==>
              forall e :: e in OtlpRecords(resourceLogs).value ==> Truthy(e.content)
  {
    ResourceLogsKeepContent([], resourceLogs);
  }

  // ---------------------------------------------------------------------
  // Request decisions before any row is written

  /** What a handler does once the header and body are checked: answer at
      once, or store the entries under the given stream id. */
  datatype Plan = Respond(res: Response) | Store(streamId: Value, entries: seq<Value>)

  /** `/v1/logs` up to its loops: 401 with code 16 for a missing or
      malformed header and for a token that does not verify; 400 with code
      3 unless `resourceLogs` is an array; a `null` body throws on
      destructuring. */
  function OtlpPlan(cred: Credential, body: Value): (r: Plan)
    ensures r.Respond? && r.res.status == 401 <==> !cred.Subject?
    ensures r.Respond? && r.res.status == 401 ==> Field(r.res.body, "code") == Num(Unauthenticated)
    ensures r.Respond? && r.res.status == 400 <==> cred.Subject? && !Nullish(body) && !Field(body, "resourceLogs").Arr?
    ensures r.Respond? && r.res.status == 400 ==> Field(r.res.body, "code") == Num(InvalidArgument)
    ensures r.Store? <==> cred.Subject? && !Nullish(body) && Field(body, "resourceLogs").Arr?
    ensures r.Store? ==> r.streamId == cred.sub && Arr(r.entries) == Field(body, "resourceLogs")
  {
    match cred
    case NoHeader => Respond(Response(401, Status(Unauthenticated, "Unauthenticated")))
    case Invalid => Respond(Response(401, Status(Unauthenticated, "Invalid token")))
    case Subject(sub) =>
      if Nullish(body) then Respond(Response(500, Status(Internal, DestructureError(body, "resourceLogs", "req.body"))))
      else
        var resourceLogs := Field(body, "resourceLogs");
        if !Truthy(resourceLogs) || !resourceLogs.Arr? then Respond(Response(400, Status(InvalidArgument, "Invalid payload")))
        else Store(sub, resourceLogs.items)
  }

  /** `/api/ingest` up to its loop: 401 for a missing or bad token, 403
      when the body's `streamId` is not the token's, 400 without `logs`; a
      single entry is wrapped into a list. */
  function IngestPlan(cred: Credential, body: Value): (r: Plan)
    ensures r.Respond? && r.res.status == 401 <==> !cred.Subject?
    ensures r.Respond? && r.res.status == 403 <==>
              cred.Subject? && !Nullish(body) && !StrictEquals(Field(body, "streamId"), cred.sub)
    ensures r.Respond? && r.res.status == 400 <==>
              && cred.Subject? && !Nullish(body) && StrictEquals(Field(body, "streamId"), cred.sub)
              && !Truthy(Field(body, "logs"))
    ensures r.Store? ==> && cred.Subject? && r.streamId == cred.sub && r.streamId == Field(body, "streamId")
                         && r.entries == Entries(Field(body, "logs"))
  {
    match cred
    case NoHeader => Respond(Response(401, Str("Unauthorized: Missing token")))
    case Invalid => Respond(Response(401, Str("Unauthorized: Invalid token")))
    case Subject(sub) =>
      if Nullish(body) then Respond(Response(500, Failure(DestructureError(body, "streamId", "req.body"))))
      else
        var streamId, logs := Field(body, "streamId"), Field(body, "logs");
        if !StrictEquals(streamId, sub) then Respond(Response(403, Str("Forbidden: Token does not match streamId")))
        else if !Truthy(logs) then Respond(Response(400, Str("Missing logs")))
        else Store(streamId, Entries(logs))
  }


  /** An entry the server's `addLog` can write: the stream id binds and
      names a stream, and the content binds. */
  predicate Accepted(streams: seq<StreamRow>, streamId: Result<string>, e: Entry) {
    streamId.Ok? && streamId.value in StreamIds(streams) && BindArgument(e.content, "logs.content", 1, BetterSqlite3).Ok?
  }

  /** better-sqlite3 spreads a one-element array over the content's one
      parameter, so an entry whose content is `[x]` is accepted exactly when
      one whose content is `x` is, and stored as the same row. */
  lemma {:induction false} SpreadContentAsElement(streams: seq<StreamRow>, streamId: Result<string>, x: Value, m: Value,
                                                  row: LogRow)
    requires Bindable(x)
    ensures Accepted(streams, streamId, Entry(Arr([x]), m)) == Accepted(streams, streamId, Entry(x, m))
    ensures Matches(row, streamId, Entry(Arr([x]), m), BetterSqlite3) == Matches(row, streamId, Entry(x, m), BetterSqlite3)
  {
  }

  /** What the server's `addLog` asks of an entry: that it is accepted,
      and, for an embedding of exactly 1024 numbers, a free rowid for its
      vector. */
  function CorePolicy(streams: seq<StreamRow>, embed: Value -> Embedding, streamId: Result<string>): (p: Policy)
    ensures forall e :: p.accepts(e) == Accepted(streams, streamId, e)
    ensures forall e :: p.indexes(e) == (embed(e.content) == Vector(VectorDimensions))
    ensures p.driver == BetterSqlite3
  {
    Policy((e: Entry) => Accepted(streams, streamId, e), (e: Entry) => embed(e.content) == Vector(VectorDimensions), BetterSqlite3)
  }

  /** Under the server's policy, the next entry of a run that has stored
      `kept` is stored exactly when `addLog` takes it now: it is accepted
      and, when it gets a vector, the next rowid is free. */
  lemma {:induction false} CoreStoredAt(t: Snapshot, embed: Value -> Embedding, streamId: Result<string>, e: Entry,
                                        logs: seq<LogRow>, vectors: set<nat>, kept: seq<Entry>)
    requires Progressed(t, logs, vectors, streamId, kept, BetterSqlite3)
    ensures StoredAt(t, CorePolicy(t.streams, embed, streamId), e, |kept|) <==>
      && Accepted(t.streams, streamId, e)
      && (embed(e.content) == Vector(VectorDimensions) ==> NextRowid(logs) !in vectors)
  {
    ProgressedAhead(t, logs, vectors, streamId, kept, 0, BetterSqlite3);
  }

  /** What the server's `addLog` did for the next entry of a run that has
      stored `kept`, read as the run's progress: it took the entry exactly
      when the run's policy stores it there, and then the run has stored
      one more entry. */
  lemma {:induction false} CoreAddedOne(t: Snapshot, embed: Value -> Embedding, streamId: Result<string>, e: Entry,
                                        logs: seq<LogRow>, vectors: set<nat>, logs': seq<LogRow>, vectors': set<nat>,
                                        kept: seq<Entry>, took: bool)
    requires streamId.Ok? && !e.metadata.Undefined?
    requires Progressed(t, logs, vectors, streamId, kept, BetterSqlite3)
    requires took <==> && streamId.value in StreamIds(t.streams)
                       && BindArgument(e.content, "logs.content", 1, BetterSqlite3).Ok?
                       && (embed(e.content) == Vector(VectorDimensions) ==> NextRowid(logs) !in vectors)
    requires took ==>
      && |logs'| == |logs| + 1 && logs'[..|logs|] == logs && NextRowid(logs') == NextRowid(logs) + 1
      && logs'[|logs|].streamId == streamId.value
      && logs'[|logs|].content == BindArgument(e.content, "logs.content", 1, BetterSqlite3).value
      && logs'[|logs|].metadata == Stored(e.metadata)
      && logs'[|logs|].rowid == NextRowid(logs)
      && vectors' == if embed(e.content) == Vector(VectorDimensions) then vectors + {logs'[|logs|].rowid} else vectors
    ensures took <==> StoredAt(t, CorePolicy(t.streams, embed, streamId), e, |kept|)
    ensures took ==> Progressed(t, logs', vectors', streamId, kept + [e], BetterSqlite3)
  {
    CoreStoredAt(t, embed, streamId, e, logs, vectors, kept);
    if took {
      assert Matches(logs'[|logs|], streamId, e, BetterSqlite3);
      ProgressedOne(t, logs, vectors, logs', vectors', streamId, kept, e, BetterSqlite3);
    }
  }

  /** The loops over a request's records stopped after storing `kept`, at
      the next entry of `w` (what the loops would keep in all), which the
      store refused; or `w` is an error, a malformed record on the way. */
  predicate StoppedBefore(t: Snapshot, p: Policy, kept: seq<Entry>, w: Result<seq<Entry>>) {
    || w.Err?
    || (&& |kept| < |w.value| && w.value[..|kept|] == kept
        && !StoredAt(t, p, w.value[|kept|], |kept|))
  }

  /** A stop inside an inner loop is a stop of the enclosing one, whose
      entries extend the inner loop's. */
  lemma {:induction false} StoppedLater(t: Snapshot, p: Policy, kept: seq<Entry>, w: Result<seq<Entry>>, w': Result<seq<Entry>>)
    requires StoppedBefore(t, p, kept, w)
    requires w.Err? ==> w'.Err?
    requires w.Ok? && w'.Ok? ==> w.value <= w'.value
    ensures StoppedBefore(t, p, kept, w')
  {
    if w.Ok? && w'.Ok? {
      assert w'.value[..|kept|] == w.value[..|kept|];
      assert w'.value[|kept|] == w.value[|kept|];
    }
  }

  // ---------------------------------------------------------------------
  // `/api/logs` paging

  const MaxLimit := 1000

  /** `(page - 1) * limit` on numbers that may be `NaN`. */
  function Offset(page: Value, limit: Value): (r: Value)
    requires (page.Num? || page.NaN?) && (limit.Num? || limit.NaN?)
    ensures r.Num? <==> page.Num? && limit.Num?
    ensures r.Num? ==> r.n == (page.n - 1) * limit.n
    ensures r.Num? && page.n >= 1 && limit.n >= 0 ==> r.n >= 0
  {
    if page.Num? && limit.Num? then Num((page.n - 1) * limit.n) else NaN
  }

  lemma TextOne()
    ensures ParseInt(Str("1")) == Num(1)
  {
    assert IntToString(1) == "1" by {
      assert DigitChar(1) == '1';
    }
    ParseIntOfIntToString(1);
  }

  lemma TextHundred()
    ensures ParseInt(Str("100")) == Num(100)
  {
    assert IntToString(100) == "100" by {
      assert DigitChar(0) == '0' && DigitChar(1) == '1';
      assert NatToString(1) == "1";
      assert NatToString(10) == "10";
    }
    ParseIntOfIntToString(100);
  }

  /** `parseInt(page || "1")`, raised to 1 when below it: without a page,
      the first; a page that parses to `n`, page `max(n, 1)`. */
  function Page(page: Value): (r: Value)
    ensures r.Num? || r.NaN?
    ensures !Truthy(page) ==> r == Num(1)
    ensures Truthy(page) && ParseInt(page).Num? ==> r == Num(Max(ParseInt(page).n, 1))
    ensures Truthy(page) && ParseInt(page).NaN? ==> r == NaN
  {
    TextOne();
    var p := ParseInt(Or(page, Str("1")));
    if p.Num? && p.n < 1 then Num(1) else p
  }

  /** `limit ? parseInt(limit) : parseInt(pageSize || "100")`: `limit` wins
      over `pageSize`, and without either the limit is 100. */
  function RequestedLimit(pageSize: Value, limit: Value): (r: Value)
    ensures r.Num? || r.NaN?
    ensures Truthy(limit) ==> r == ParseInt(limit)
    ensures !Truthy(limit) && Truthy(pageSize) ==> r == ParseInt(pageSize)
    ensures !Truthy(limit) && !Truthy(pageSize) ==> r == Num(100)
  {
    TextHundred();
    if Truthy(limit) then ParseInt(limit) else ParseInt(Or(pageSize, Str("100")))
  }

  /** The paging of `/api/logs` as written: a limit above 1000 is lowered
      to 1000, a negative one passes unchanged, and the offset is
      `(page - 1) * limit`. */
  function PagingAsWritten(page: Value, pageSize: Value, limit: Value): (r: (Value, Value))
    ensures var l := RequestedLimit(pageSize, limit);
            r.0 == if l.Num? then Num(Min(l.n, MaxLimit)) else NaN
    ensures r.1.Num? <==> r.0.Num? && Page(page).Num?
    ensures r.1.Num? ==> r.1.n == (Page(page).n - 1) * r.0.n
  {
    var l := RequestedLimit(pageSize, limit);
    var l := if l.Num? && l.n > MaxLimit then Num(MaxLimit) else l;
    (l, Offset(Page(page), l))
  }

  /** With `limit=-1` the cap is bypassed: SQLite reads a negative LIMIT as
      no limit, so every row of the stream comes back, however many. */
  lemma {:induction false} NegativeLimitUncapped(logs: seq<LogRow>, streamId: string)
    requires |RowsOfStream(logs, streamId)| > MaxLimit
    ensures var (limit, offset) := PagingAsWritten(Undefined, Undefined, Str("-1"));
            && limit == Num(-1) && offset == Num(0)
            && |RecentLogs(logs, streamId, limit.n, offset.n)| > MaxLimit
  {
    TextMinusOne();
    var (limit, offset) := PagingAsWritten(Undefined, Undefined, Str("-1"));
    assert RequestedLimit(Undefined, Str("-1")) == Num(-1);
    assert limit == Num(-1) && Page(Undefined) == Num(1);
    assert WindowStart(|RowsOfStream(logs, streamId)|, 0) == 0;
  }

  lemma TextMinusOne()
    ensures ParseInt(Str("-1")) == Num(-1)
  {
    assert IntToString(-1) == "-1" by {
      assert NatToString(1) == "1";
    }
    ParseIntOfIntToString(-1);
  }

  /** The paging with the limit also kept from going below 0, so that at
      most 1000 rows are ever asked for; elsewhere it agrees with the code
      as written. */
  method Paging(page: Value, pageSize: Value, limitParam: Value) returns (limit: Value, offset: Value)
    ensures limit.Num? <==> RequestedLimit(pageSize, limitParam).Num?
    ensures limit.Num? ==> 0 <= limit.n <= MaxLimit
    ensures offset.Num? ==> offset.n >= 0
    ensures offset.Num? <==> RequestedLimit(pageSize, limitParam).Num? && Page(page).Num?
    ensures var (l, o) := PagingAsWritten(page, pageSize, limitParam);
            !(l.Num? && l.n < 0) ==> limit == l && offset == o
  {
    var p := Page(page);
    limit := RequestedLimit(pageSize, limitParam);
    if limit.Num? && limit.n > MaxLimit {
      limit := Num(MaxLimit);
    }
    assert PagingAsWritten(page, pageSize, limitParam) == (limit, Offset(p, limit));
    if limit.Num? && limit.n < 0 {
      limit := Num(0);
    }
    offset := Offset(p, limit);
  }

  /** With the corrected paging, a page of `/api/logs` never holds more than
      1000 logs. */
  lemma {:induction false} CorrectedPageCapped(logs: seq<LogRow>, streamId: string, limit: Value, offset: Value)
    requires limit.Num? && 0 <= limit.n <= MaxLimit && offset.Num?
    ensures |RecentLogs(logs, streamId, limit.n, offset.n)| <= MaxLimit
  {
  }

  /** What `/api/logs` answers. `Failed` is not a reply: the handler has
      no `try`/`catch`, so the error `getRecentLogs` throws becomes an
      unhandled rejection of the async handler and no response is sent. */
  datatype LogsReply =
    | Rejected(status: nat, message: string)
    | Found(search: Result<Search>)
    | Recent(logs: seq<LogView>)
    | Failed(error: string)

  class Server {
    const service: CoreDb.DbService
    /** The module's own `AuthService`, initialised before the server
        listens, so its secret is cached. */
    const auth: AuthService

    ghost predicate Valid()
      reads this, service, service.db, auth
    {
      && service.Valid() && auth.db == service.db
      && auth.secretKey.Some? && auth.secretKey.value != ""
    }

    constructor (service: CoreDb.DbService, auth: AuthService)
      requires auth.db == service.db
      ensures this.service == service && this.auth == auth
    {
      this.service := service;
      this.auth := auth;
    }

    /** The header checks, with `verifyToken` asked for the token. */
    method Authorize(header: Option<string>, random: string) returns (cred: Credential)
      requires Valid() && random != ""
      modifies service.db`config, auth`secretKey
      ensures Valid() && unchanged(service.db) && unchanged(auth)
      ensures cred == Authenticate(header, auth.jwt, auth.secretKey.value)
    {
      if header.None? || !StartsWith(header.value, BearerPrefix) {
        return NoHeader;
      }
      var token := BearerToken(header.value);
      if token.None? {
        return Invalid;
      }
      var payload := auth.VerifyToken(token.value, random);
      assert payload.Ok?;
      match payload.value
      case None => return Invalid;
      case Some(sub) => return Subject(sub);
    }

    /** `await db.addLog(streamId, content, metadata)` for one entry with
        content, in a run from the store `t` that has stored `kept`: it is
        stored exactly when the run's policy lets it take its place, as the
        next row; otherwise nothing changes. */
    method StoreEntry(streamId: Result<string>, e: Entry, ghost t: Snapshot, ghost kept: seq<Entry>)
      returns (r: Result<()>)
      requires Valid() && !e.metadata.Undefined? && service.db.streams == t.streams
      requires Progressed(t, service.db.logs, service.db.vectors, streamId, kept, BetterSqlite3)
      modifies service.db`logs, service.db`vectors, service.db`draws
      ensures Valid() && service.db.streams == old(service.db.streams)
      ensures r.Ok? <==> StoredAt(t, CorePolicy(t.streams, service.embed, streamId), e, |kept|)
      ensures r.Ok? ==> Progressed(t, service.db.logs, service.db.vectors, streamId, kept + [e], BetterSqlite3)
      ensures r.Err? ==> service.db.logs == old(service.db.logs) && service.db.vectors == old(service.db.vectors)
    {
      if streamId.Err? {
        return Err(streamId.error);
      }
      ghost var logs, vectors := service.db.logs, service.db.vectors;
      var added := service.AddLog(streamId.value, e.content, e.metadata);
      CoreAddedOne(t, service.embed, streamId, e, logs, vectors, service.db.logs, service.db.vectors, kept, added.Ok?);
      return if added.Ok? then Ok(()) else Err(added.error);
    }

    /** One pass of the loop of `/api/ingest`: entry `i` normalised and,
        when it has content, stored. It goes on exactly when the run so far
        extends to entry `i`; otherwise the loop stops there. */
    method StoreNext(streamId: Result<string>, entries: seq<Value>, i: nat, ghost t: Snapshot, ghost p: Policy)
      returns (r: Result<()>)
      requires Valid() && i < |entries| && service.db.streams == t.streams
      requires p == CorePolicy(t.streams, service.embed, streamId)
      requires Normalise(entries[..i]).Ok? && AllStored(t, p, Normalise(entries[..i]).value)
      requires Progressed(t, service.db.logs, service.db.vectors, streamId, Normalise(entries[..i]).value, BetterSqlite3)
      modifies service.db`logs, service.db`vectors, service.db`draws
      ensures Valid() && service.db.streams == t.streams
      ensures r.Ok? ==> && Normalise(entries[..i + 1]).Ok?
                        && AllStored(t, p, Normalise(entries[..i + 1]).value)
                        && Progressed(t, service.db.logs, service.db.vectors, streamId,
                                      Normalise(entries[..i + 1]).value, BetterSqlite3)
      ensures r.Err? ==> HaltedAt(t, p, streamId, entries, service.db.logs, i)
    {
      ghost var kept := Normalise(entries[..i]).value;
      var entry := Normalised(entries[i]);
      assert entries[..i + 1][..i] == entries[..i] && entries[..i + 1][i] == entries[i];
      if entry.Err? {
        return Err(entry.error);
      }
      if !Truthy(entry.value.content) {
        assert Normalise(entries[..i + 1]) == Ok(kept);
        return Ok(());
      }
      assert Normalise(entries[..i + 1]) == Ok(kept + [entry.value]);
      r := StoreEntry(streamId, entry.value, t, kept);
      if r.Ok? {
        AllStoredSnoc(t, p, kept, entry.value);
      }
    }

    /** The loop of `/api/ingest`: each entry normalised and, when it has
        content, stored. It completes exactly when no entry is `null` and
        the store takes every kept entry in turn, and then one row per kept
        entry has been appended, in order. When it stops, the entries before
        the one it stopped at stay stored. */
    method StoreEntries(streamId: Result<string>, entries: seq<Value>) returns (r: Result<()>)
      requires Valid()
      modifies service.db`logs, service.db`vectors, service.db`draws
      ensures Valid() && service.db.streams == old(service.db.streams)
      ensures var p := CorePolicy(old(service.db.streams), service.embed, streamId);
        && (r.Ok? <==> Normalise(entries).Ok? && AllStored(old(service.db.State()), p, Normalise(entries).value))
        && (r.Ok? ==> Appended(old(service.db.logs), service.db.logs, streamId, Normalise(entries).value, BetterSqlite3))
        && (r.Err? ==> Halted(old(service.db.State()), p, streamId, entries, service.db.logs))
    {
      ghost var t := service.db.State();
      ghost var p := CorePolicy(t.streams, service.embed, streamId);
      ProgressedNothing(t, streamId, BetterSqlite3);
      var i := 0;
      while i < |entries|
        invariant 0 <= i <= |entries|
        invariant Valid() && service.db.streams == t.streams
        invariant Normalise(entries[..i]).Ok?
        invariant AllStored(t, p, Normalise(entries[..i]).value)
        invariant Progressed(t, service.db.logs, service.db.vectors, streamId, Normalise(entries[..i]).value, BetterSqlite3)
      {
        var step := StoreNext(streamId, entries, i, t, p);
        if step.Err? {
          HaltedNotAllStored(t, p, streamId, entries, service.db.logs, i);
          return step;
        }
        i := i + 1;
      }
      assert entries[..i] == entries;
      return Ok(());
    }

    /** `POST /api/ingest`: after the checks, the entries are stored and the
        reply counts every entry, stored or skipped; an error on the way is
        a 500, and the entries stored before it stay. While no vector sits
        at or above the next rowid, an entry is stored exactly when it is
        accepted. */
    method HandleIngest(header: Option<string>, body: Value, random: string) returns (res: Response)
      requires Valid() && random != ""
      modifies service.db`logs, service.db`vectors, service.db`draws, service.db`config, auth`secretKey
      ensures Valid() && service.db.streams == old(service.db.streams)
      ensures var plan := IngestPlan(Authenticate(header, auth.jwt, auth.secretKey.value), body);
        && (plan.Respond? ==> res == plan.res && service.db.logs == old(service.db.logs))
        && (plan.Store? ==>
              var t := old(service.db.State());
              var sid := BindArgument(plan.streamId, "logs.stream_id", 2, BetterSqlite3);
              var p := CorePolicy(t.streams, service.embed, sid);
              var kept := Normalise(plan.entries);
              && (res.status == 200 <==> kept.Ok? && AllStored(t, p, kept.value))
              && (NoVectorAhead(t.logs, t.vectors) ==>
                    (res.status == 200 <==> kept.Ok? && forall e :: e in kept.value ==> Accepted(t.streams, sid, e)))
              && (res.status != 200 ==> res.status == 500 && Halted(t, p, sid, plan.entries, service.db.logs))
              && (res.status == 200 ==>
                    && res.body == Obj([Member("success", Bool(true)), Member("count", Num(|plan.entries|))])
                    && Appended(t.logs, service.db.logs, sid, kept.value, BetterSqlite3)))
    {
      var cred := Authorize(header, random);
      var plan := IngestPlan(cred, body);
      assert plan == IngestPlan(Authenticate(header, auth.jwt, auth.secretKey.value), body);
      if plan.Respond? {
        return plan.res;
      }
      var sid := BindArgument(plan.streamId, "logs.stream_id", 2, BetterSqlite3);
      ghost var t := service.db.State();
      var kept := Normalise(plan.entries);
      if kept.Ok? && NoVectorAhead(t.logs, t.vectors) {
        AllStoredAccepted(t, CorePolicy(t.streams, service.embed, sid), kept.value);
      }
      var stored := StoreEntries(sid, plan.entries);
      if stored.Err? {
        return Response(500, Failure(stored.error));
      }
      return Response(200, Obj([Member("success", Bool(true)), Member("count", Num(|plan.entries|))]));
    }

    /** One turn of the innermost loop: record `i` built and, when it has
        content, stored and counted. */
    method StoreRecord(streamId: Result<string>, records: seq<Value>, i: nat, resource: seq<Member>, scope: Value,
                       ghost t: Snapshot, ghost kept: seq<Entry>, count: nat)
      returns (r: Result<nat>, ghost kept': seq<Entry>)
      requires Valid() && i < |records| && count == |kept| && service.db.streams == t.streams
      requires Progressed(t, service.db.logs, service.db.vectors, streamId, kept, BetterSqlite3)
      requires AllStored(t, CorePolicy(t.streams, service.embed, streamId), kept)
      modifies service.db`logs, service.db`vectors, service.db`draws
      ensures Valid() && service.db.streams == old(service.db.streams)
      ensures Progressed(t, service.db.logs, service.db.vectors, streamId, kept', BetterSqlite3)
      ensures AllStored(t, CorePolicy(t.streams, service.embed, streamId), kept')
      ensures r.Ok? ==> && RecordsFrom(kept, records[i..], resource, scope)
                           == RecordsFrom(kept', records[i + 1..], resource, scope)
                        && r.value == |kept'|
      ensures r.Err? ==> StoppedBefore(t, CorePolicy(t.streams, service.embed, streamId), kept',
                                       RecordsFrom(kept, records[i..], resource, scope))
    {
      kept' := kept;
      var entry := BuildRecord(records[i], resource, scope);
      RecordsFromStep(kept, records, i, resource, scope);
      if entry.Err? {
        return Err(entry.error), kept';
      }
      if !Truthy(entry.value.content) {
        return Ok(count), kept';
      }
      var stored := StoreEntry(streamId, entry.value, t, kept);
      if stored.Err? {
        StoppedAtRecord(t, CorePolicy(t.streams, service.embed, streamId), kept, entry.value, records[i + 1..], resource, scope);
        return Err(stored.error), kept';
      }
      AllStoredSnoc(t, CorePolicy(t.streams, service.embed, streamId), kept, entry.value);
      kept' := kept + [entry.value];
      return Ok(count + 1), kept';
    }

    /** The innermost loop of `/v1/logs`: each record built and, when it
        has content, stored and counted. */
    method StoreRecords(streamId: Result<string>, records: seq<Value>, resource: seq<Member>, scope: Value,
                        ghost t: Snapshot, ghost kept: seq<Entry>, count: nat)
      returns (r: Result<nat>, ghost kept': seq<Entry>)
      requires Valid() && count == |kept| && service.db.streams == t.streams
      requires Progressed(t, service.db.logs, service.db.vectors, streamId, kept, BetterSqlite3)
      requires AllStored(t, CorePolicy(t.streams, service.embed, streamId), kept)
      modifies service.db`logs, service.db`vectors, service.db`draws
      ensures Valid() && service.db.streams == old(service.db.streams)
      ensures Progressed(t, service.db.logs, service.db.vectors, streamId, kept', BetterSqlite3)
      ensures AllStored(t, CorePolicy(t.streams, service.embed, streamId), kept')
      ensures r.Ok? ==> RecordsFrom(kept, records, resource, scope) == Ok(kept') && r.value == |kept'|
      ensures r.Err? ==> StoppedBefore(t, CorePolicy(t.streams, service.embed, streamId), kept',
                                       RecordsFrom(kept, records, resource, scope))
    {
      ghost var p := CorePolicy(t.streams, service.embed, streamId);
      kept' := kept;
      var n := count;
      var i := 0;
      while i < |records|
        invariant 0 <= i <= |records|
        invariant Valid() && service.db.streams == t.streams
        invariant n == |kept'|
        invariant Progressed(t, service.db.logs, service.db.vectors, streamId, kept', BetterSqlite3)
        invariant AllStored(t, p, kept')
        invariant RecordsFrom(kept', records[i..], resource, scope) == RecordsFrom(kept, records, resource, scope)
      {
        ghost var before := kept';
        var stored;
        stored, kept' := StoreRecord(streamId, records, i, resource, scope, t, kept', n);
        if stored.Err? {
          ghost var w := RecordsFrom(kept, records, resource, scope);
          assert w == RecordsFrom(before, records[i..], resource, scope);
          assert StoppedBefore(t, p, kept', w);
          return Err(stored.error), kept';
        }
        n := stored.value;
        i := i + 1;
      }
      assert records[i..] == [];
      return Ok(n), kept';
    }

    /** One turn of the middle loop: scope `i` and its records. */
    method StoreScopeLog(streamId: Result<string>, scopeLogs: seq<Value>, i: nat, resource: seq<Member>,
                         ghost t: Snapshot, ghost kept: seq<Entry>, count: nat)
      returns (r: Result<nat>, ghost kept': seq<Entry>)
      requires Valid() && i < |scopeLogs| && count == |kept| && service.db.streams == t.streams
      requires Progressed(t, service.db.logs, service.db.vectors, streamId, kept, BetterSqlite3)
      requires AllStored(t, CorePolicy(t.streams, service.embed, streamId), kept)
      modifies service.db`logs, service.db`vectors, service.db`draws
      ensures Valid() && service.db.streams == old(service.db.streams)
      ensures Progressed(t, service.db.logs, service.db.vectors, streamId, kept', BetterSqlite3)
      ensures AllStored(t, CorePolicy(t.streams, service.embed, streamId), kept')
      ensures r.Ok? ==> && ScopeLogsFrom(kept, scopeLogs[i..], resource) == ScopeLogsFrom(kept', scopeLogs[i + 1..], resource)
                        && r.value == |kept'|
      ensures r.Err? ==> StoppedBefore(t, CorePolicy(t.streams, service.embed, streamId), kept',
                                       ScopeLogsFrom(kept, scopeLogs[i..], resource))
    {
      ghost var p := CorePolicy(t.streams, service.embed, streamId);
      kept' := kept;
      var scopeLog := scopeLogs[i];
      ScopeLogsFromStep(kept, scopeLogs, i, resource);
      if Nullish(scopeLog) {
        return Err(ReadError(scopeLog, "scope")), kept';
      }
      var scope := OptProp(Field(scopeLog, "scope"), "name");
      var records := Field(scopeLog, "logRecords");
      if !Truthy(records) {
        return Ok(count), kept';
      }
      var items := Iterate(records);
      if items.None? {
        return Err("TypeError: scopeLog.logRecords is not iterable"), kept';
      }
      var stored;
      stored, kept' := StoreRecords(streamId, items.value, resource, scope, t, kept, count);
      if stored.Err? {
        ghost var w := RecordsFrom(kept, items.value, resource, scope);
        if w.Ok? {
          ScopeLogsKeepContent(w.value, scopeLogs[i + 1..], resource);
        }
        StoppedLater(t, p, kept', w, ScopeLogsFrom(kept, scopeLogs[i..], resource));
        return Err(stored.error), kept';
      }
      return Ok(stored.value), kept';
    }

    /** The middle loop of `/v1/logs`, over the scopes of one resource. */
    method StoreScopeLogs(streamId: Result<string>, scopeLogs: seq<Value>, resource: seq<Member>,
                          ghost t: Snapshot, ghost kept: seq<Entry>, count: nat)
      returns (r: Result<nat>, ghost kept': seq<Entry>)
      requires Valid() && count == |kept| && service.db.streams == t.streams
      requires Progressed(t, service.db.logs, service.db.vectors, streamId, kept, BetterSqlite3)
      requires AllStored(t, CorePolicy(t.streams, service.embed, streamId), kept)
      modifies service.db`logs, service.db`vectors, service.db`draws
      ensures Valid() && service.db.streams == old(service.db.streams)
      ensures Progressed(t, service.db.logs, service.db.vectors, streamId, kept', BetterSqlite3)
      ensures AllStored(t, CorePolicy(t.streams, service.embed, streamId), kept')
      ensures r.Ok? ==> ScopeLogsFrom(kept, scopeLogs, resource) == Ok(kept') && r.value == |kept'|
      ensures r.Err? ==> StoppedBefore(t, CorePolicy(t.streams, service.embed, streamId), kept',
                                       ScopeLogsFrom(kept, scopeLogs, resource))
    {
      ghost var p := CorePolicy(t.streams, service.embed, streamId);
      kept' := kept;
      var n := count;
      var i := 0;
      while i < |scopeLogs|
        invariant 0 <= i <= |scopeLogs|
        invariant Valid() && service.db.streams == t.streams
        invariant n == |kept'|
        invariant Progressed(t, service.db.logs, service.db.vectors, streamId, kept', BetterSqlite3)
        invariant AllStored(t, p, kept')
        invariant ScopeLogsFrom(kept', scopeLogs[i..], resource) == ScopeLogsFrom(kept, scopeLogs, resource)
      {
        ghost var before := kept';
        var stored;
        stored, kept' := StoreScopeLog(streamId, scopeLogs, i, resource, t, kept', n);
        if stored.Err? {
          ghost var w := ScopeLogsFrom(kept, scopeLogs, resource);
          assert w == ScopeLogsFrom(before, scopeLogs[i..], resource);
          assert StoppedBefore(t, p, kept', w);
          return Err(stored.error), kept';
        }
        n := stored.value;
        i := i + 1;
      }
      assert scopeLogs[i..] == [];
      return Ok(n), kept';
    }

    /** One turn of the outer loop: resource `i`, its attributes and its
        scopes. */
    method StoreResourceLog(streamId: Result<string>, resourceLogs: seq<Value>, i: nat,
                            ghost t: Snapshot, ghost kept: seq<Entry>, count: nat)
      returns (r: Result<nat>, ghost kept': seq<Entry>)
      requires Valid() && i < |resourceLogs| && count == |kept| && service.db.streams == t.streams
      requires Progressed(t, service.db.logs, service.db.vectors, streamId, kept, BetterSqlite3)
      requires AllStored(t, CorePolicy(t.streams, service.embed, streamId), kept)
      modifies service.db`logs, service.db`vectors, service.db`draws
      ensures Valid() && service.db.streams == old(service.db.streams)
      ensures Progressed(t, service.db.logs, service.db.vectors, streamId, kept', BetterSqlite3)
      ensures AllStored(t, CorePolicy(t.streams, service.embed, streamId), kept')
      ensures r.Ok? ==> && ResourceLogsFrom(kept, resourceLogs[i..]) == ResourceLogsFrom(kept', resourceLogs[i + 1..])
                        && r.value == |kept'|
      ensures r.Err? ==> StoppedBefore(t, CorePolicy(t.streams, service.embed, streamId), kept',
                                       ResourceLogsFrom(kept, resourceLogs[i..]))
    {
      ghost var p := CorePolicy(t.streams, service.embed, streamId);
      kept' := kept;
      var resourceLog := resourceLogs[i];
      ResourceLogsFromStep(kept, resourceLogs, i);
      if Nullish(resourceLog) {
        return Err(ReadError(resourceLog, "resource")), kept';
      }
      var resource := ParseOtlpAttributes(OptProp(Field(resourceLog, "resource"), "attributes"));
      if resource.Err? {
        return Err(resource.error), kept';
      }
      var scopeLogs := Field(resourceLog, "scopeLogs");
      if !Truthy(scopeLogs) {
        return Ok(count), kept';
      }
      var items := Iterate(scopeLogs);
      if items.None? {
        return Err("TypeError: resourceLog.scopeLogs is not iterable"), kept';
      }
      var stored;
      stored, kept' := StoreScopeLogs(streamId, items.value, resource.value, t, kept, count);
      if stored.Err? {
        ghost var w := ScopeLogsFrom(kept, items.value, resource.value);
        if w.Ok? {
          ResourceLogsKeepContent(w.value, resourceLogs[i + 1..]);
        }
        StoppedLater(t, p, kept', w, ResourceLogsFrom(kept, resourceLogs[i..]));
        return Err(stored.error), kept';
      }
      return Ok(stored.value), kept';
    }

    /** The outer loop of `/v1/logs`, over the resources. It completes
        exactly when every record is well formed and the store takes every
        record with content in turn; when the records are well formed and
        it stops, it stopped at a record the store refused, and those before
        it stay stored. */
    method StoreResourceLogs(streamId: Result<string>, resourceLogs: seq<Value>)
      returns (r: Result<nat>)
      requires Valid()
      modifies service.db`logs, service.db`vectors, service.db`draws
      ensures Valid() && service.db.streams == old(service.db.streams)
      ensures var t := old(service.db.State());
              var p := CorePolicy(t.streams, service.embed, streamId);
              var kept := OtlpRecords(resourceLogs);
        && (r.Ok? <==> kept.Ok? && AllStored(t, p, kept.value))
        && (r.Ok? ==> Appended(t.logs, service.db.logs, streamId, kept.value, BetterSqlite3) && r.value == |kept.value|)
        && (r.Err? && kept.Ok? ==> Refused(t, p, streamId, kept.value, service.db.logs))
    {
      ghost var t := service.db.State();
      ghost var p := CorePolicy(t.streams, service.embed, streamId);
      ghost var kept: seq<Entry> := [];
      ProgressedNothing(t, streamId, BetterSqlite3);
      var n := 0;
      var i := 0;
      while i < |resourceLogs|
        invariant 0 <= i <= |resourceLogs|
        invariant Valid() && service.db.streams == t.streams
        invariant n == |kept|
        invariant Progressed(t, service.db.logs, service.db.vectors, streamId, kept, BetterSqlite3)
        invariant AllStored(t, p, kept)
        invariant ResourceLogsFrom(kept, resourceLogs[i..]) == OtlpRecords(resourceLogs)
      {
        ghost var before := kept;
        var stored;
        stored, kept := StoreResourceLog(streamId, resourceLogs, i, t, kept, n);
        if stored.Err? {
          ghost var all := OtlpRecords(resourceLogs);
          assert all == ResourceLogsFrom(before, resourceLogs[i..]);
          assert StoppedBefore(t, p, kept, all);
          if all.Ok? {
            assert all.value[..|kept|] == kept;
            assert RefusedAt(t, p, streamId, all.value, service.db.logs, |kept|);
          }
          return Err(stored.error);
        }
        n := stored.value;
        i := i + 1;
      }
      assert resourceLogs[i..] == [];
      return Ok(n);
    }

    /** The part of `/v1/logs` after the checks: the three loops, then the
        reply. */
    method IngestOtlp(streamId: Value, resourceLogs: seq<Value>) returns (res: Response)
      requires Valid()
      modifies service.db`logs, service.db`vectors, service.db`draws
      ensures Valid() && service.db.streams == old(service.db.streams)
      ensures var t := old(service.db.State());
              var sid := BindArgument(streamId, "logs.stream_id", 2, BetterSqlite3);
              var p := CorePolicy(t.streams, service.embed, sid);
              var kept := OtlpRecords(resourceLogs);
        && (res.status == 200 || res.status == 500)
        && (res.status == 200 <==> kept.Ok? && AllStored(t, p, kept.value))
        && (NoVectorAhead(t.logs, t.vectors) ==>
              (res.status == 200 <==> kept.Ok? && forall e :: e in kept.value ==> Accepted(t.streams, sid, e)))
        && (res.status == 500 ==> && Field(res.body, "code") == Num(Internal)
                                  && (kept.Ok? ==> Refused(t, p, sid, kept.value, service.db.logs)))
        && (res.status == 200 ==>
              && res.body == Obj([Member("partialSuccess", Obj([])), Member("logsIngested", Num(|kept.value|))])
              && Appended(t.logs, service.db.logs, sid, kept.value, BetterSqlite3))
    {
      var sid := BindArgument(streamId, "logs.stream_id", 2, BetterSqlite3);
      ghost var t := service.db.State();
      ghost var kept := OtlpRecords(resourceLogs);
      if kept.Ok? && NoVectorAhead(t.logs, t.vectors) {
        AllStoredAccepted(t, CorePolicy(t.streams, service.embed, sid), kept.value);
      }
      var count := StoreResourceLogs(sid, resourceLogs);
      if count.Err? {
        return Response(500, Status(Internal, count.error));
      }
      return Response(200, Obj([Member("partialSuccess", Obj([])), Member("logsIngested", Num(count.value))]));
    }

    /** `POST /v1/logs`: after the checks, every record with content is
        stored under the token's stream and counted in `logsIngested`; an
        error on the way is a 500 with code 13. */
    method HandleOtlp(header: Option<string>, body: Value, random: string) returns (res: Response)
      requires Valid() && random != ""
      modifies service.db`logs, service.db`vectors, service.db`draws, service.db`config, auth`secretKey
      ensures Valid() && service.db.streams == old(service.db.streams)
      ensures var plan := OtlpPlan(Authenticate(header, auth.jwt, auth.secretKey.value), body);
        && (plan.Respond? ==> res == plan.res && service.db.logs == old(service.db.logs))
        && (plan.Store? ==>
              var t := old(service.db.State());
              var sid := BindArgument(plan.streamId, "logs.stream_id", 2, BetterSqlite3);
              var p := CorePolicy(t.streams, service.embed, sid);
              var kept := OtlpRecords(plan.entries);
              && (res.status == 200 || res.status == 500)
              && (res.status == 200 <==> kept.Ok? && AllStored(t, p, kept.value))
              && (NoVectorAhead(t.logs, t.vectors) ==>
                    (res.status == 200 <==> kept.Ok? && forall e :: e in kept.value ==> Accepted(t.streams, sid, e)))
              && (res.status == 500 ==> && Field(res.body, "code") == Num(Internal)
                                        && (kept.Ok? ==> Refused(t, p, sid, kept.value, service.db.logs)))
              && (res.status == 200 ==>
                    && res.body == Obj([Member("partialSuccess", Obj([])), Member("logsIngested", Num(|kept.value|))])
                    && Appended(t.logs, service.db.logs, sid, kept.value, BetterSqlite3)))
    {
      var cred := Authorize(header, random);
      var plan := OtlpPlan(cred, body);
      assert plan == OtlpPlan(Authenticate(header, auth.jwt, auth.secretKey.value), body);
      if plan.Respond? {
        return plan.res;
      }
      res := IngestOtlp(plan.streamId, plan.entries);
    }

    /** `db.getRecentLogs(streamId, limit, offset)`: the stream id is the
        first of the query's three arguments, which better-sqlite3 spreads
        when it is an array (`?streamId[]=…`), so a one-element array asks
        for its element, and an element that binds as NULL matches no row.
        A `NaN` bound binds as NULL and the query throws (`Failed`). */
    method QueryLogs(streamId: Value, limit: Value, offset: Value) returns (r: LogsReply)
      requires Valid()
      ensures var sid := SpreadArgument(streamId, 2);
              r == if sid.Err? then Failed(sid.error)
                   else if !limit.Num? || !offset.Num? then Failed("SqliteError: datatype mismatch")
                   else if !(sid.value.Str? || sid.value.Num?) then Recent([])
                   else Recent(service.GetRecentLogs(BindText(sid.value, "logs.stream_id", BetterSqlite3).value,
                                                     limit.n, offset.n))
      ensures streamId.Arr? && |streamId.items| == 1 && streamId.items[0].Str? && limit.Num? && offset.Num? ==>
                r == Recent(service.GetRecentLogs(streamId.items[0].s, limit.n, offset.n))
      ensures r.Recent? ==> limit.Num? && (limit.n >= 0 ==> |r.logs| <= limit.n)
    {
      var sid := SpreadArgument(streamId, 2);
      if sid.Err? {
        return Failed(sid.error);
      }
      if !limit.Num? || !offset.Num? {
        return Failed("SqliteError: datatype mismatch");
      }
      var text := BindNullable(sid.value, BetterSqlite3);
      if text.value.None? {
        return Recent([]);
      }
      assert text.value.value == BindText(sid.value, "logs.stream_id", BetterSqlite3).value;
      return Recent(service.GetRecentLogs(text.value.value, limit.n, offset.n));
    }

    /** `GET /api/logs`: 400 without a stream id; with a query `q` the
        search path (which takes the limit but no offset); otherwise the
        window of the stream's logs the paging as written asks for, where a
        one-element array `["s"]` as the stream id asks for `s`. A throw
        leaves the request without a response (`Failed`). */
    method HandleLogs(streamId: Value, page: Value, pageSize: Value, limitParam: Value, q: Value)
      returns (r: LogsReply)
      requires Valid()
      ensures !Truthy(streamId) ==> r == Rejected(400, "Missing streamId")
      ensures Truthy(streamId) && Truthy(q) ==> r == Found(service.SearchLogs(q))
      ensures Truthy(streamId) && !Truthy(q) ==>
                var sid := SpreadArgument(streamId, 2);
                var (limit, offset) := PagingAsWritten(page, pageSize, limitParam);
                r == if sid.Err? then Failed(sid.error)
                     else if !limit.Num? || !offset.Num? then Failed("SqliteError: datatype mismatch")
                     else if !(sid.value.Str? || sid.value.Num?) then Recent([])
                     else Recent(service.GetRecentLogs(BindText(sid.value, "logs.stream_id", BetterSqlite3).value,
                                                       limit.n, offset.n))
      ensures Truthy(streamId) && !Truthy(q) && streamId.Arr? && |streamId.items| == 1 && streamId.items[0].Str? ==>
                var (limit, offset) := PagingAsWritten(page, pageSize, limitParam);
                limit.Num? && offset.Num? ==> r == Recent(service.GetRecentLogs(streamId.items[0].s, limit.n, offset.n))
      ensures r.Recent? && PagingAsWritten(page, pageSize, limitParam).0.n >= 0 ==> |r.logs| <= MaxLimit
    {
      if !Truthy(streamId) {
        return Rejected(400, "Missing streamId");
      }
      var (limit, offset) := PagingAsWritten(page, pageSize, limitParam);
      if Truthy(q) {
        return Found(service.SearchLogs(q));
      }
      r := QueryLogs(streamId, limit, offset);
    }
  }
}
