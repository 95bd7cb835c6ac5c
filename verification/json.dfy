/** JavaScript values as the modelled TypeScript code sees them: what
    `JSON.parse` produces from a request body, plus the `undefined` and
    `NaN` that the code itself can create. Objects keep their members in
    insertion order, as JavaScript objects do, so that spreading and
    serialisation follow the language. Numbers are integers here. */
module Json {
  import opened Wrappers
  import opened Strings

  datatype Value =
    | Undefined
    | Null
    | NaN
    | Bool(b: bool)
    | Num(n: int)
    | Str(s: string)
    | Arr(items: seq<Value>)
    | Obj(members: seq<Member>)

  datatype Member = Member(key: string, value: Value)

  /** JavaScript truthiness: `if (v)`, `v || d`, `!v`. */
  predicate Truthy(v: Value) {
    match v
    case Undefined => false
    case Null => false
    case NaN => false
    case Bool(b) => b
    case Num(n) => n != 0
    case Str(s) => s != ""
    case Arr(_) => true
    case Obj(_) => true
  }

  /** `v == null`: reading a property of such a value throws a TypeError. */
  predicate Nullish(v: Value) {
    v.Undefined? || v.Null?
  }

  /** `String(e)` for the TypeError V8 throws on reading `property` of a
      nullish value. */
  function ReadError(v: Value, property: string): string {
    "TypeError: Cannot read properties of " + (if v.Null? then "null" else "undefined")
      + " (reading '" + property + "')"
  }

  /** `String(e)` for the TypeError V8 throws on destructuring `property`
      out of a nullish value, written in the source as `source`. */
  function DestructureError(v: Value, property: string, source: string): string {
    "TypeError: Cannot destructure property '" + property + "' of '" + source + "' as it is "
      + (if v.Null? then "null" else "undefined") + "."
  }

  /** `a || b`. */
  function Or(a: Value, b: Value): (r: Value)
    ensures Truthy(a) ==> r == a
    ensures !Truthy(a) ==> r == b
  {
    if Truthy(a) then a else b
  }

  // ---------------------------------------------------------------------
  // Objects as ordered member lists

  function Keys(ms: seq<Member>): set<string> {
    if ms == [] then {} else Keys(ms[..|ms| - 1]) + {ms[|ms| - 1].key}
  }

  /** `o[k]`: the last member with that key, `undefined` when there is none. */
  function Get(ms: seq<Member>, k: string): Value {
    if ms == [] then Undefined
    else if ms[|ms| - 1].key == k then ms[|ms| - 1].value
    else Get(ms[..|ms| - 1], k)
  }

  lemma {:induction false} GetAbsent(ms: seq<Member>, k: string)
    requires k !in Keys(ms)
    ensures Get(ms, k) == Undefined
  {
    if ms != [] {
      GetAbsent(ms[..|ms| - 1], k);
    }
  }

  /** Every member with key `k` given the value `v`, in place. */
  function Replace(ms: seq<Member>, k: string, v: Value): (r: seq<Member>)
    ensures |r| == |ms| && Keys(r) == Keys(ms)
  {
    if ms == [] then []
    else
      var last := ms[|ms| - 1];
      var r := Replace(ms[..|ms| - 1], k, v) + [if last.key == k then Member(k, v) else last];
      assert r[..|r| - 1] == Replace(ms[..|ms| - 1], k, v);
      r
  }

  lemma {:induction false} ReplaceGet(ms: seq<Member>, k: string, v: Value, j: string)
    ensures Get(Replace(ms, k, v), j) == if j == k && k in Keys(ms) then v else Get(ms, j)
  {
    if ms != [] {
      var r := Replace(ms, k, v);
      assert r[..|r| - 1] == Replace(ms[..|ms| - 1], k, v);
      ReplaceGet(ms[..|ms| - 1], k, v, j);
    }
  }

  /** `o[k] = v`: an existing key keeps its position, a new key goes last. */
  function Set(ms: seq<Member>, k: string, v: Value): (r: seq<Member>)
    ensures Keys(r) == Keys(ms) + {k}
  {
    if k in Keys(ms) then Replace(ms, k, v)
    else
      var r := ms + [Member(k, v)];
      assert r[..|r| - 1] == ms;
      r
  }

  /** After `o[k] = v`, reading `k` gives `v` and every other key is unchanged. */
  lemma {:induction false} SetGet(ms: seq<Member>, k: string, v: Value, j: string)
    ensures Get(Set(ms, k, v), j) == if j == k then v else Get(ms, j)
  {
    if k in Keys(ms) {
      ReplaceGet(ms, k, v, j);
    } else {
      var r := ms + [Member(k, v)];
      assert r[..|r| - 1] == ms;
    }
  }

  /** `{...a, ...b}`: the members of `b` assigned, in order, onto a copy of `a`. */
  function Assign(a: seq<Member>, b: seq<Member>): (r: seq<Member>)
    ensures Keys(r) == Keys(a) + Keys(b)
  {
    if b == [] then a
    else Set(Assign(a, b[..|b| - 1]), b[|b| - 1].key, b[|b| - 1].value)
  }

  /** In `{...a, ...b}` a key of `b` takes `b`'s value; any other key keeps `a`'s. */
  lemma {:induction false} AssignGet(a: seq<Member>, b: seq<Member>, k: string)
    ensures Get(Assign(a, b), k) == if k in Keys(b) then Get(b, k) else Get(a, k)
  {
    if b != [] {
      var n := |b| - 1;
      AssignGet(a, b[..n], k);
      SetGet(Assign(a, b[..n]), b[n].key, b[n].value, k);
    }
  }

  // ---------------------------------------------------------------------
  // Property access

  /** `v.k` for a value that is not nullish. Only keys that are not
      built-in properties of strings and arrays are ever read. */
  function Field(v: Value, k: string): Value {
    if v.Obj? then Get(v.members, k) else Undefined
  }

  /** `v.k`: `None` stands for the TypeError thrown on `null`/`undefined`. */
  function Prop(v: Value, k: string): (r: Option<Value>)
    ensures r.None? <==> Nullish(v)
  {
    if Nullish(v) then None else Some(Field(v, k))
  }

  /** `v?.k`. */
  function OptProp(v: Value, k: string): (r: Value)
    ensures Nullish(v) ==> r == Undefined
  {
    if Nullish(v) then Undefined else Field(v, k)
  }

  /** What `for (const x of v)` visits; `None` when `v` is not iterable. */
  function Iterate(v: Value): (r: Option<seq<Value>>)
    ensures v.Arr? ==> r == Some(v.items)
    ensures r.None? <==> !(v.Arr? || v.Str?)
  {
    match v
    case Arr(items) => Some(items)
    case Str(s) => Some(seq(|s|, i requires 0 <= i < |s| => Str([s[i]])))
    case _ => None
  }

  /** `a === b` for values from different sources: two objects or arrays
      are never the same reference, and `NaN` equals nothing. */
  predicate StrictEquals(a: Value, b: Value) {
    !a.Arr? && !a.Obj? && !a.NaN? && a == b
  }

  // ---------------------------------------------------------------------
  // Conversions

  /** `String(v)`, and what a template literal `${v}` inserts. */
  function ToStr(v: Value): string {
    match v
    case Undefined => "undefined"
    case Null => "null"
    case NaN => "NaN"
    case Bool(b) => if b then "true" else "false"
    case Num(n) => IntToString(n)
    case Str(s) => s
    case Arr(items) =>
      Join(seq(|items|, i requires 0 <= i < |items| =>
                 if Nullish(items[i]) then "" else ToStr(items[i])), ",")
    case Obj(_) => "[object Object]"
  }

  /** `parseInt(v)` without a radix: the text of `v` read by `ParseIntText`. */
  function ParseInt(v: Value): (r: Value)
    ensures r.Num? || r.NaN?
  {
    ParseIntText(ToStr(v))
  }

  /** Leading white space, an optional sign, then the magnitude; `NaN`
      when no digit follows. */
  function ParseIntText(text: string): (r: Value)
    ensures r.Num? || r.NaN?
  {
    var s := TrimStart(text);
    var signed := s != [] && (s[0] == '-' || s[0] == '+');
    var magnitude := Magnitude(if signed then s[1..] else s);
    if magnitude.None? then NaN
    else if signed && s[0] == '-' then Num(-(magnitude.value as int))
    else Num(magnitude.value)
  }

  /** An optional `0x`/`0X` selects radix 16, otherwise radix 10; then the
      longest run of digits of that radix, `None` when it is empty. */
  function Magnitude(s: string): Option<nat> {
    var hex := |s| >= 2 && s[0] == '0' && (s[1] == 'x' || s[1] == 'X');
    var radix := if hex then 16 else 10;
    var digits := DigitPrefix(if hex then s[2..] else s, radix);
    if digits == [] then None else Some(DigitsValue(digits, radix))
  }

  lemma {:induction false} MagnitudeOfNatToString(m: nat)
    ensures Magnitude(NatToString(m)) == Some(m)
  {
    var ds := NatToString(m);
    NatToStringValue(m);
    AllDigitsPrefix(ds);
    assert !(|ds| >= 2 && ds[0] == '0' && (ds[1] == 'x' || ds[1] == 'X'));
  }

  lemma {:induction false} ParseIntTextNegative(s: string, m: nat)
    requires s != [] && s[0] == '-' && Magnitude(s[1..]) == Some(m)
    ensures ParseIntText(s) == Num(-(m as int))
  {
    assert !IsSpace(s[0]);
    assert TrimStart(s) == s;
  }

  lemma {:induction false} ParseIntTextDigits(s: string, m: nat)
    requires s != [] && '0' <= s[0] <= '9' && Magnitude(s) == Some(m)
    ensures ParseIntText(s) == Num(m)
  {
    assert !IsSpace(s[0]);
    assert TrimStart(s) == s;
    assert s[0] != '-' && s[0] != '+';
  }

  /** An integer rendered in decimal parses back to itself. */
  lemma {:induction false} ParseIntOfIntToString(n: int)
    ensures ParseInt(Str(IntToString(n))) == Num(n)
  {
    var s := IntToString(n);
    assert ToStr(Str(s)) == s;
    if n < 0 {
      var ds := NatToString(-n);
      MagnitudeOfNatToString(-n);
      assert s == "-" + ds;
      assert s[1..] == ds;
      ParseIntTextNegative(s, -n);
    } else {
      MagnitudeOfNatToString(n);
      assert s == NatToString(n);
      ParseIntTextDigits(s, n);
    }
  }

  // ---------------------------------------------------------------------
  // JSON

  function EscapeChar(c: char): string {
    if c == '"' then "\\\""
    else if c == '\\' then "\\\\"
    else if c == '\U{0008}' then "\\b"
    else if c == '\U{000C}' then "\\f"
    else if c == '\n' then "\\n"
    else if c == '\r' then "\\r"
    else if c == '\t' then "\\t"
    else if (c as int) < 0x20 then "\\u00" + [DigitChar((c as int) / 16), DigitChar((c as int) % 16)]
    else [c]
  }

  function Escape(s: string): string {
    if s == [] then "" else EscapeChar(s[0]) + Escape(s[1..])
  }

  /** No line break inside. */
  predicate SingleLine(s: string) {
    '\n' !in s && '\r' !in s
  }

  lemma {:induction false} EscapeCharSingleLine(c: char)
    ensures SingleLine(EscapeChar(c))
  {
    if (c as int) < 0x20 && c !in "\"\\\U{0008}\U{000C}\n\r\t" {
      assert EscapeChar(c) == "\\u00" + [DigitChar((c as int) / 16), DigitChar((c as int) % 16)];
    }
  }

  lemma {:induction false} EscapeSingleLine(s: string)
    ensures SingleLine(Escape(s))
  {
    if s != [] {
      EscapeCharSingleLine(s[0]);
      EscapeSingleLine(s[1..]);
    }
  }

  /** A string literal as `JSON.stringify` writes it. */
  function Quote(s: string): string {
    "\"" + Escape(s) + "\""
  }

  /** The members `JSON.stringify` writes: those whose value is not `undefined`. */
  function Defined(ms: seq<Member>): (r: seq<Member>)
    ensures forall m :: m in r ==> m in ms && !m.value.Undefined?
  {
    if ms == [] then []
    else (if ms[0].value.Undefined? then [] else [ms[0]]) + Defined(ms[1..])
  }

  /** `JSON.stringify(v)` for a value that is not itself `undefined`
      (for which JavaScript returns `undefined`, not text). */
  function Serialize(v: Value): (r: string)
    requires !v.Undefined?
    ensures r != ""
  {
    match v
    case Null => "null"
    case NaN => "null"
    case Bool(b) => if b then "true" else "false"
    case Num(n) => IntToString(n)
    case Str(s) => Quote(s)
    case Arr(items) =>
      "[" + Join(seq(|items|, i requires 0 <= i < |items| =>
                       if items[i].Undefined? then "null" else Serialize(items[i])), ",") + "]"
    case Obj(ms) =>
      var d := Defined(ms);
      "{" + Join(seq(|d|, i requires 0 <= i < |d| =>
                       assert d[i] in ms; Quote(d[i].key) + ":" + Serialize(d[i].value)), ",") + "}"
  }

  /** `JSON.stringify` without an indent writes one line: every line
      break inside a string is escaped. */
  lemma {:induction false} SerializeSingleLine(v: Value)
    requires !v.Undefined?
    ensures SingleLine(Serialize(v))
    decreases v, 1
  {
    match v
    case Num(n) =>
      assert SingleLine(NatToString(if n < 0 then -n else n));
    case Str(s) =>
      EscapeSingleLine(s);
    case Arr(_) =>
      ArraySingleLine(v);
    case Obj(_) =>
      ObjectSingleLine(v);
    case _ =>
  }

  lemma {:induction false} ArraySingleLine(v: Value)
    requires v.Arr?
    ensures SingleLine(Serialize(v))
    decreases v, 0
  {
    var items := v.items;
    var parts := seq(|items|, i requires 0 <= i < |items| =>
                     if items[i].Undefined? then "null" else Serialize(items[i]));
    forall i | 0 <= i < |items| ensures SingleLine(parts[i]) {
      if !items[i].Undefined? {
        SerializeSingleLine(items[i]);
      }
    }
    JoinWithout(parts, ",", '\n');
    JoinWithout(parts, ",", '\r');
    assert Serialize(v) == "[" + Join(parts, ",") + "]";
  }

  lemma {:induction false} ObjectSingleLine(v: Value)
    requires v.Obj?
    ensures SingleLine(Serialize(v))
    decreases v, 0
  {
    var d := Defined(v.members);
    var parts := seq(|d|, i requires 0 <= i < |d| =>
                     assert d[i] in v.members; Quote(d[i].key) + ":" + Serialize(d[i].value));
    forall i | 0 <= i < |d| ensures SingleLine(parts[i]) {
      assert d[i] in v.members;
      EscapeSingleLine(d[i].key);
      SerializeSingleLine(d[i].value);
    }
    JoinWithout(parts, ",", '\n');
    JoinWithout(parts, ",", '\r');
    assert Serialize(v) == "{" + Join(parts, ",") + "}";
  }

  /** `JSON.parse` of what a TEXT column holds after `JSON.stringify(v)` was
      written to it: `undefined` members vanish, `undefined` array elements
      and `NaN` become `null`, and a top-level `undefined` (bound as SQL
      NULL) reads back as `null`. */
  function Stored(v: Value): Value {
    match v
    case Undefined => Null
    case NaN => Null
    case Arr(items) => Arr(seq(|items|, i requires 0 <= i < |items| => Stored(items[i])))
    case Obj(ms) =>
      var d := Defined(ms);
      Obj(seq(|d|, i requires 0 <= i < |d| => assert d[i] in ms; Member(d[i].key, Stored(d[i].value))))
    case _ => v
  }

  /** A value JSON represents exactly: no `undefined` and no `NaN` inside. */
  predicate Plain(v: Value) {
    match v
    case Undefined => false
    case NaN => false
    case Arr(items) => forall i :: 0 <= i < |items| ==> Plain(items[i])
    case Obj(ms) => forall i :: 0 <= i < |ms| ==> Plain(ms[i].value)
    case _ => true
  }

  lemma {:induction false} DefinedAll(ms: seq<Member>)
    requires forall i :: 0 <= i < |ms| ==> !ms[i].value.Undefined?
    ensures Defined(ms) == ms
  {
    if ms != [] {
      DefinedAll(ms[1..]);
      assert [ms[0]] + ms[1..] == ms;
    }
  }

  /** A plain value survives the trip through a JSON column unchanged. */
  lemma {:induction false} StoredPlain(v: Value)
    requires Plain(v)
    ensures Stored(v) == v
  {
    match v
    case Arr(items) =>
      forall i | 0 <= i < |items| ensures Stored(items[i]) == items[i] {
        StoredPlain(items[i]);
      }
      assert Stored(v).items == items;
    case Obj(ms) =>
      DefinedAll(ms);
      forall i | 0 <= i < |ms| ensures Stored(ms[i].value) == ms[i].value {
        StoredPlain(ms[i].value);
      }
      assert Stored(v).members == ms;
    case _ =>
  }

  /** Whatever was written, what is read back is plain. */
  lemma {:induction false} StoredIsPlain(v: Value)
    ensures Plain(Stored(v))
  {
    match v
    case Arr(items) =>
      forall i | 0 <= i < |items| ensures Plain(Stored(items[i])) {
        StoredIsPlain(items[i]);
      }
    case Obj(ms) =>
      var d := Defined(ms);
      forall i | 0 <= i < |d| ensures Plain(Stored(d[i].value)) {
        assert d[i] in ms;
        StoredIsPlain(d[i].value);
      }
    case _ =>
  }

  /** Writing a read-back value again changes nothing. */
  lemma {:induction false} StoredIdempotent(v: Value)
    ensures Stored(Stored(v)) == Stored(v)
  {
    StoredIsPlain(v);
    StoredPlain(Stored(v));
  }
}
