/**
The content hash of an agent configuration: the control plane hashes what Python's encoder writes, the
agent what Go's encoder writes, and the agent accepts a configuration only if the two agree.
*/
module CanonicalJson {
  import opened Options
  import opened Numerals
  import opened Json
  import opened JsonUnique

  // ---------------------------------------------------------------- the two encoders

  function HexDigit(n: nat): char
    requires n < 16
  {
    if n < 10 then '0' + n as char else 'a' + (n - 10) as char
  }

  function Unit(n: nat): string
    requires n < 0x10000
  {
    ['\\', 'u', HexDigit(n / 4096), HexDigit(n / 256 % 16), HexDigit(n / 16 % 16), HexDigit(n % 16)]
  }

  /** The escape of any code point; beyond the basic plane a pair of surrogates. */
  function UnicodeEscape(c: char): string {
    var n := c as int;
    if n < 0x10000 then Unit(n) else Unit(0xd800 + (n - 0x10000) / 1024) + Unit(0xdc00 + (n - 0x10000) % 1024)
  }

  /** The short escapes both encoders know. */
  function Short(c: char): Option<char> {
    if c == '"' || c == '\\' then Some(c)
    else if c == '\n' then Some('n')
    else if c == '\r' then Some('r')
    else if c == '\t' then Some('t')
    else if c == '\U{08}' then Some('b')
    else if c == '\U{0c}' then Some('f')
    else None
  }

  function PythonChar(c: char): string {
    if Short(c).Some? then ['\\', Short(c).value] else if ' ' <= c <= '~' then [c] else UnicodeEscape(c)
  }

  function GoChar(c: char): string {
    if Short(c).Some? then ['\\', Short(c).value]
    else if c < ' ' || c == '<' || c == '>' || c == '&' || c == '\U{2028}' || c == '\U{2029}' then UnicodeEscape(c)
    else [c]
  }

  function PythonStyle(): Style {
    Style(PythonChar, Decimal)
  }

  /** Go decodes numbers of a configuration into double precision before it writes them; `double` is that rounding. */
  function GoStyle(double: int -> int): Style {
    Style(GoChar, n => Decimal(double(n)))
  }

  const EXACT := 0x20_0000_0000_0000

  predicate Exact(n: int) {
    -EXACT < n < EXACT
  }

  /** Double precision holds every integer below 2^53 in magnitude. */
  ghost predicate IsDouble(double: int -> int) {
    forall n :: Exact(n) ==> double(n) == n
  }

  // ---------------------------------------------------------------- where they agree

  predicate AgreedChar(c: char) {
    c == '\U{2028}' || c == '\U{2029}' || (c < '\U{7f}' && c != '<' && c != '>' && c != '&')
  }

  predicate AgreedText(s: string) {
    forall i :: 0 <= i < |s| ==> AgreedChar(s[i])
  }

  lemma CharsAgreeIff(c: char)
    ensures |PythonChar(c)| > 0 && |GoChar(c)| > 0
    ensures if AgreedChar(c) then PythonChar(c) == GoChar(c) else PythonChar(c)[0] != GoChar(c)[0]
  {
  }

  /** The texts part at some character. */
  ghost predicate Diverge(a: string, b: string) {
    exists k :: 0 <= k < |a| && k < |b| && a[..k] == b[..k] && a[k] != b[k]
  }

  lemma DivergeDiffer(a: string, b: string)
    requires Diverge(a, b)
    ensures a != b
  {
  }

  lemma DivergeLater(p: string, a: string, b: string)
    requires Diverge(a, b)
    ensures Diverge(p + a, p + b)
  {
    var k :| 0 <= k < |a| && k < |b| && a[..k] == b[..k] && a[k] != b[k];
    var j := |p| + k;
    assert (p + a)[..j] == p + a[..k] && (p + b)[..j] == p + b[..k];
    assert (p + a)[j] != (p + b)[j];
  }

  lemma DivergeSooner(a: string, b: string, x: string, y: string)
    requires Diverge(a, b)
    ensures Diverge(a + x, b + y)
  {
    var k :| 0 <= k < |a| && k < |b| && a[..k] == b[..k] && a[k] != b[k];
    assert (a + x)[..k] == a[..k] && (b + y)[..k] == b[..k];
    assert (a + x)[k] != (b + y)[k];
  }

  /** The texts are equal if `agree`, and otherwise part. */
  ghost predicate EqualIff(agree: bool, a: string, b: string) {
    if agree then a == b else Diverge(a, b)
  }

  /** Texts written one behind the other part where the first of their pieces parts. */
  lemma EqualIffJoin(f: bool, a: string, b: string, g: bool, x: string, y: string)
    requires EqualIff(f, a, b) && EqualIff(g, x, y)
    ensures EqualIff(f && g, a + x, b + y)
  {
    if !f {
      DivergeSooner(a, b, x, y);
    } else if !g {
      DivergeLater(a, x, y);
    }
  }

  lemma CharEqualIff(c: char)
    ensures EqualIff(AgreedChar(c), PythonChar(c), GoChar(c))
  {
    CharsAgreeIff(c);
    if !AgreedChar(c) {
      assert PythonChar(c)[..0] == GoChar(c)[..0];
    }
  }

  lemma {:induction false} TextEqualIff(s: string, double: int -> int)
    ensures EqualIff(AgreedText(s), Escaped(s, PythonStyle()), Escaped(s, GoStyle(double)))
  {
    if s != "" {
      CharEqualIff(s[0]);
      TextEqualIff(s[1..], double);
      EqualIffJoin(AgreedChar(s[0]), PythonChar(s[0]), GoChar(s[0]),
                   AgreedText(s[1..]), Escaped(s[1..], PythonStyle()), Escaped(s[1..], GoStyle(double)));
      assert AgreedText(s) <==> AgreedChar(s[0]) && AgreedText(s[1..]) by {
        assert forall i :: 0 < i < |s| ==> s[i] == s[1..][i - 1];
      }
    }
  }

  lemma QuotedEqualIff(s: string, double: int -> int)
    ensures EqualIff(AgreedText(s), Quoted(s, PythonStyle()), Quoted(s, GoStyle(double)))
  {
    TextEqualIff(s, double);
    var a, b := Escaped(s, PythonStyle()), Escaped(s, GoStyle(double));
    EqualIffJoin(true, "\"", "\"", AgreedText(s), a, b);
    EqualIffJoin(AgreedText(s), "\"" + a, "\"" + b, true, "\"", "\"");
  }

  predicate Agreed(v: Value) {
    All(v, AgreedText, Exact)
  }

  /** Every number passes through double precision unharmed. */
  predicate Numeric(v: Value) {
    All(v, Anything, Exact)
  }

  predicate Anything(s: string) {
    true
  }

  lemma {:induction false} EmitEqualIff(v: Value, double: int -> int)
    requires IsDouble(double) && Numeric(v)
    ensures EqualIff(Agreed(v), Emit(v, PythonStyle()), Emit(v, GoStyle(double)))
    decreases v, 1
  {
    match v
    case Text(s) => QuotedEqualIff(s, double);
    case Array(items) => ArrayEqualIff(items, double);
    case Object(fields) => ObjectEqualIff(fields, double);
    case _ =>
  }

  lemma {:induction false} ArrayEqualIff(items: Items, double: int -> int)
    requires IsDouble(double) && AllItems(items, Anything, Exact)
    ensures EqualIff(AllItems(items, AgreedText, Exact), Emit(Array(items), PythonStyle()), Emit(Array(items), GoStyle(double)))
    decreases items, 1
  {
    var p, g := PythonStyle(), GoStyle(double);
    if items.Item? {
      EmitEqualIff(items.head, double);
      ItemsEqualIff(items.tail, double);
      EqualIffJoin(Agreed(items.head), Emit(items.head, p), Emit(items.head, g),
                   AllItems(items.tail, AgreedText, Exact), EmitItems(items.tail, p), EmitItems(items.tail, g));
    }
    EqualIffJoin(true, "[", "[", AllItems(items, AgreedText, Exact), ArrayBody(items, p), ArrayBody(items, g));
  }

  lemma {:induction false} ObjectEqualIff(fields: Fields, double: int -> int)
    requires IsDouble(double) && AllFields(fields, Anything, Exact)
    ensures EqualIff(AllFields(fields, AgreedText, Exact), Emit(Object(fields), PythonStyle()), Emit(Object(fields), GoStyle(double)))
    decreases fields, 1
  {
    var p, g := PythonStyle(), GoStyle(double);
    if fields.Field? {
      var agree := AgreedText(fields.key) && Agreed(fields.value);
      FieldEqualIff(fields.key, fields.value, double);
      FieldsEqualIff(fields.rest, double);
      EqualIffJoin(agree, EmitField(fields.key, fields.value, p), EmitField(fields.key, fields.value, g),
                   AllFields(fields.rest, AgreedText, Exact), EmitFields(fields.rest, p), EmitFields(fields.rest, g));
    }
    EqualIffJoin(true, "{", "{", AllFields(fields, AgreedText, Exact), ObjectBody(fields, p), ObjectBody(fields, g));
  }

  lemma {:induction false} ItemsEqualIff(items: Items, double: int -> int)
    requires IsDouble(double) && AllItems(items, Anything, Exact)
    ensures EqualIff(AllItems(items, AgreedText, Exact), EmitItems(items, PythonStyle()), EmitItems(items, GoStyle(double)))
    decreases items, 0
  {
    if items.Item? {
      var p, g := PythonStyle(), GoStyle(double);
      EmitEqualIff(items.head, double);
      ItemsEqualIff(items.tail, double);
      EqualIffJoin(true, ",", ",", Agreed(items.head), Emit(items.head, p), Emit(items.head, g));
      EqualIffJoin(Agreed(items.head), "," + Emit(items.head, p), "," + Emit(items.head, g),
                   AllItems(items.tail, AgreedText, Exact), EmitItems(items.tail, p), EmitItems(items.tail, g));
    }
  }

  lemma {:induction false} FieldEqualIff(key: string, value: Value, double: int -> int)
    requires IsDouble(double) && Numeric(value)
    ensures EqualIff(AgreedText(key) && Agreed(value), EmitField(key, value, PythonStyle()), EmitField(key, value, GoStyle(double)))
    decreases value, 2
  {
    var p, g := PythonStyle(), GoStyle(double);
    QuotedEqualIff(key, double);
    EmitEqualIff(value, double);
    EqualIffJoin(AgreedText(key), Quoted(key, p), Quoted(key, g), true, ":", ":");
    EqualIffJoin(AgreedText(key), Quoted(key, p) + ":", Quoted(key, g) + ":", Agreed(value), Emit(value, p), Emit(value, g));
  }

  lemma {:induction false} FieldsEqualIff(fields: Fields, double: int -> int)
    requires IsDouble(double) && AllFields(fields, Anything, Exact)
    ensures EqualIff(AllFields(fields, AgreedText, Exact), EmitFields(fields, PythonStyle()), EmitFields(fields, GoStyle(double)))
    decreases fields, 0
  {
    if fields.Field? {
      var p, g := PythonStyle(), GoStyle(double);
      var agree := AgreedText(fields.key) && Agreed(fields.value);
      FieldEqualIff(fields.key, fields.value, double);
      FieldsEqualIff(fields.rest, double);
      EqualIffJoin(true, ",", ",", agree, EmitField(fields.key, fields.value, p), EmitField(fields.key, fields.value, g));
      EqualIffJoin(agree, "," + EmitField(fields.key, fields.value, p), "," + EmitField(fields.key, fields.value, g),
                   AllFields(fields.rest, AgreedText, Exact), EmitFields(fields.rest, p), EmitFields(fields.rest, g));
    }
  }

  /** The two encoders write the same text exactly when no text or key holds a character they treat differently. */
  lemma EncodersAgreeIff(v: Value, double: int -> int)
    requires IsDouble(double) && Numeric(v)
    ensures Canonical(v, PythonStyle()) == Canonical(v, GoStyle(double)) <==> Agreed(v)
  {
    NormalAll(v, Anything, Exact);
    NormalAll(v, AgreedText, Exact);
    EmitEqualIff(Normal(v), double);
    if !Agreed(v) {
      DivergeDiffer(Canonical(v, PythonStyle()), Canonical(v, GoStyle(double)));
    }
  }

  /** A text the encoders write differently: Python leaves the bracket, Go escapes it. */
  lemma BracketsDiffer(double: int -> int)
    ensures Canonical(Text("<"), PythonStyle()) == "\"<\"" && Canonical(Text("<"), GoStyle(double)) == "\"\\u003c\""
  {
    var text := "<";
    assert text[1..] == "";
    assert Escaped(text, PythonStyle()) == PythonChar('<') + Escaped("", PythonStyle());
    assert Escaped(text, GoStyle(double)) == GoChar('<') + Escaped("", GoStyle(double));
    assert GoChar('<') == "\\u003c";
  }

  // ---------------------------------------------------------------- equal hashes, equal configurations

  /** Printable ASCII without the characters Go escapes for HTML. */
  predicate SafeText(s: string) {
    forall i :: 0 <= i < |s| ==> Printable(s[i]) && s[i] != '<' && s[i] != '>' && s[i] != '&'
  }

  predicate Safe(v: Value) {
    All(v, SafeText, Exact)
  }

  lemma {:induction false} AllWeaker(v: Value, p: string -> bool, r: string -> bool, q: int -> bool)
    requires All(v, p, q) && forall s :: p(s) ==> r(s)
    ensures All(v, r, q)
  {
    match v
    case Array(items) => AllItemsWeaker(items, p, r, q);
    case Object(fields) => AllFieldsWeaker(fields, p, r, q);
    case _ =>
  }

  lemma {:induction false} AllItemsWeaker(items: Items, p: string -> bool, r: string -> bool, q: int -> bool)
    requires AllItems(items, p, q) && forall s :: p(s) ==> r(s)
    ensures AllItems(items, r, q)
  {
    if items.Item? {
      AllWeaker(items.head, p, r, q);
      AllItemsWeaker(items.tail, p, r, q);
    }
  }

  lemma {:induction false} AllFieldsWeaker(fields: Fields, p: string -> bool, r: string -> bool, q: int -> bool)
    requires AllFields(fields, p, q) && forall s :: p(s) ==> r(s)
    ensures AllFields(fields, r, q)
  {
    if fields.Field? {
      AllWeaker(fields.value, p, r, q);
      AllFieldsWeaker(fields.rest, p, r, q);
    }
  }

  lemma PythonIsStandard()
    ensures Standard(PythonStyle(), Exact)
  {
  }

  lemma SafeIsPlainAndAgreed(v: Value)
    requires Safe(v)
    ensures All(v, PlainText, Exact) && Agreed(v) && Numeric(v)
  {
    AllWeaker(v, SafeText, PlainText, Exact);
    AllWeaker(v, SafeText, AgreedText, Exact);
    AllWeaker(v, SafeText, Anything, Exact);
  }

  /** No two texts have one digest. */
  ghost predicate CollisionFree(digest: string -> string) {
    forall s, t :: digest(s) == digest(t) ==> s == t
  }

  /** The hash one side computes equals the hash of the other exactly when they mean the same configuration. */
  lemma EqualHashIffEqualUpToKeyOrder(a: Value, b: Value, double: int -> int, digest: string -> string)
    requires IsDouble(double) && CollisionFree(digest) && Safe(a) && Safe(b)
    ensures digest(Canonical(a, PythonStyle())) == digest(Canonical(b, GoStyle(double))) <==> Normal(a) == Normal(b)
  {
    SafeIsPlainAndAgreed(a);
    SafeIsPlainAndAgreed(b);
    EncodersAgreeIff(b, double);
    PythonIsStandard();
    CanonicalUnique(a, b, PythonStyle(), Exact);
  }

  // ---------------------------------------------------------------- the agent's check

  datatype MonitorConfiguration = MonitorConfiguration(
    monitorId: string, targetId: string, monitorRevision: int, targetAddress: string, probeType: string,
    probeSchemaVersion: int, intervalSeconds: int, timeoutSeconds: int, missedRunPolicy: string, configuration: Fields)

  datatype Response = Response(
    protocolVersion: int, schemaVersion: int, agentId: string, realmId: string, revision: int, contentHash: string,
    monitors: seq<MonitorConfiguration>)

  datatype ProbeCapability = ProbeCapability(schemaVersions: seq<int>, available: bool)

  type Capabilities = map<string, ProbeCapability>

  datatype Refusal = Unsupported | WrongIdentity | Duplicate(monitor: string) | Incapable(monitor: string) | BadSchedule(monitor: string) | HashDiffers

  predicate Capable(m: MonitorConfiguration, capabilities: Capabilities) {
    m.probeType in capabilities && capabilities[m.probeType].available && m.probeSchemaVersion in capabilities[m.probeType].schemaVersions
  }

  predicate Schedulable(m: MonitorConfiguration) {
    m.intervalSeconds >= 1 && 1 <= m.timeoutSeconds < m.intervalSeconds && m.missedRunPolicy == "skip"
  }

  /** An object with these keys and values. */
  function FieldsOf(keys: seq<string>, values: seq<Value>): Fields
    requires |keys| == |values|
  {
    if keys == [] then NoField else Field(keys[0], values[0], FieldsOf(keys[1..], values[1..]))
  }

  function MonitorKeys(): seq<string> {
    ["monitor_id", "target_id", "monitor_revision", "target_address", "probe_type", "probe_schema_version", "interval_seconds",
     "timeout_seconds", "missed_run_policy", "configuration"]
  }

  function MonitorParts(m: MonitorConfiguration): seq<Value> {
    [Text(m.monitorId), Text(m.targetId), Number(m.monitorRevision), Text(m.targetAddress), Text(m.probeType),
     Number(m.probeSchemaVersion), Number(m.intervalSeconds), Number(m.timeoutSeconds), Text(m.missedRunPolicy), Object(m.configuration)]
  }

  function MonitorValue(m: MonitorConfiguration): Value {
    Object(FieldsOf(MonitorKeys(), MonitorParts(m)))
  }

  function MonitorItems(monitors: seq<MonitorConfiguration>): Items {
    if monitors == [] then NoItem else Item(MonitorValue(monitors[0]), MonitorItems(monitors[1..]))
  }

  function ContentKeys(): seq<string> {
    ["configuration_schema_version", "agent_id", "realm_id", "monitors"]
  }

  function ContentParts(agentId: string, realmId: string, monitors: seq<MonitorConfiguration>): seq<Value> {
    [Number(1), Text(agentId), Text(realmId), Array(MonitorItems(monitors))]
  }

  /** What is hashed on either side. */
  function Content(agentId: string, realmId: string, monitors: seq<MonitorConfiguration>): Value {
    Object(FieldsOf(ContentKeys(), ContentParts(agentId, realmId, monitors)))
  }

  // ---------------------------------------------------------------- the hashed value determines the monitors

  predicate AllDiffer(keys: seq<string>) {
    forall i, j :: 0 <= i < j < |keys| ==> keys[i] != keys[j]
  }

  lemma {:induction false} FieldsOfKeys(keys: seq<string>, values: seq<Value>)
    requires |keys| == |values| && AllDiffer(keys)
    ensures DistinctKeys(FieldsOf(keys, values))
    ensures forall k :: k in AsMap(FieldsOf(keys, values)) <==> k in keys
    ensures forall k :: k in NormalMap(FieldsOf(keys, values)) <==> k in keys
    ensures forall i :: 0 <= i < |keys| ==> NormalMap(FieldsOf(keys, values))[keys[i]] == Normal(values[i])
  {
    if keys != [] {
      FieldsOfKeys(keys[1..], values[1..]);
      assert forall i :: 1 <= i < |keys| ==> keys[1..][i - 1] == keys[i] && values[1..][i - 1] == values[i];
      assert forall k :: k in keys <==> k == keys[0] || k in keys[1..];
    }
  }

  /** Two objects with the same keys have one normal form exactly when their values have, key by key. */
  lemma FieldsOfEqual(keys: seq<string>, a: seq<Value>, b: seq<Value>)
    requires |keys| == |a| == |b| && AllDiffer(keys)
    ensures Normal(Object(FieldsOf(keys, a))) == Normal(Object(FieldsOf(keys, b))) <==>
              forall i :: 0 <= i < |keys| ==> Normal(a[i]) == Normal(b[i])
  {
    FieldsOfKeys(keys, a);
    FieldsOfKeys(keys, b);
    NormalIgnoresOrder(FieldsOf(keys, a), FieldsOf(keys, b));
    var m, n := NormalMap(FieldsOf(keys, a)), NormalMap(FieldsOf(keys, b));
    if forall i :: 0 <= i < |keys| ==> Normal(a[i]) == Normal(b[i]) {
      forall k | k in m ensures k in n && m[k] == n[k] {
        var i :| 0 <= i < |keys| && keys[i] == k;
      }
      assert m == n;
    }
    if m == n {
      forall i | 0 <= i < |keys| ensures Normal(a[i]) == Normal(b[i]) {
        assert m[keys[i]] == n[keys[i]];
      }
    }
  }

  /** Keys that differ in length or first letter differ. */
  lemma ToldApart(keys: seq<string>, lengths: seq<nat>, initials: string)
    requires |keys| == |lengths| == |initials|
    requires forall i :: 0 <= i < |keys| ==> |keys[i]| == lengths[i] > 0 && keys[i][0] == initials[i]
    requires forall i, j :: 0 <= i < j < |keys| ==> lengths[i] != lengths[j] || initials[i] != initials[j]
    ensures AllDiffer(keys)
  {
  }

  lemma MonitorKeysDiffer()
    ensures AllDiffer(MonitorKeys())
  {
    ToldApart(MonitorKeys(), [10, 9, 16, 14, 10, 20, 16, 15, 17, 13], "mtmtppitmc");
  }

  lemma ContentKeysDiffer()
    ensures AllDiffer(ContentKeys())
  {
    ToldApart(ContentKeys(), [28, 8, 8, 8], "carm");
  }

  /** The same monitor up to the order of the keys in its configuration. */
  predicate SameMonitor(a: MonitorConfiguration, b: MonitorConfiguration) {
    a.(configuration := NoField) == b.(configuration := NoField) && Normal(Object(a.configuration)) == Normal(Object(b.configuration))
  }

  lemma MonitorsEqual(a: MonitorConfiguration, b: MonitorConfiguration)
    ensures Normal(MonitorValue(a)) == Normal(MonitorValue(b)) <==> SameMonitor(a, b)
  {
    MonitorKeysDiffer();
    FieldsOfEqual(MonitorKeys(), MonitorParts(a), MonitorParts(b));
    PartsEqual(a, b);
  }

  lemma PartsEqual(a: MonitorConfiguration, b: MonitorConfiguration)
    ensures (forall i :: 0 <= i < 10 ==> Normal(MonitorParts(a)[i]) == Normal(MonitorParts(b)[i])) <==> SameMonitor(a, b)
  {
    var p, q := MonitorParts(a), MonitorParts(b);
    if forall i :: 0 <= i < 10 ==> Normal(p[i]) == Normal(q[i]) {
      assert Normal(p[0]) == Normal(q[0]) && Normal(p[1]) == Normal(q[1]) && Normal(p[2]) == Normal(q[2]) && Normal(p[3]) == Normal(q[3]);
      assert Normal(p[4]) == Normal(q[4]) && Normal(p[5]) == Normal(q[5]) && Normal(p[6]) == Normal(q[6]) && Normal(p[7]) == Normal(q[7]);
      assert Normal(p[8]) == Normal(q[8]) && Normal(p[9]) == Normal(q[9]);
    }
  }

  ghost predicate SameMonitors(a: seq<MonitorConfiguration>, b: seq<MonitorConfiguration>) {
    |a| == |b| && forall i :: 0 <= i < |a| ==> SameMonitor(a[i], b[i])
  }

  lemma {:induction false} MonitorItemsEqual(a: seq<MonitorConfiguration>, b: seq<MonitorConfiguration>)
    ensures NormalItems(MonitorItems(a)) == NormalItems(MonitorItems(b)) <==> SameMonitors(a, b)
    decreases |a|
  {
    if a != [] && b != [] {
      MonitorsEqual(a[0], b[0]);
      MonitorItemsEqual(a[1..], b[1..]);
      if SameMonitors(a[1..], b[1..]) && SameMonitor(a[0], b[0]) {
        forall i | 0 <= i < |a| ensures SameMonitor(a[i], b[i]) {
          if i > 0 {
            assert SameMonitor(a[1..][i - 1], b[1..][i - 1]);
          }
        }
      }
      if SameMonitors(a, b) {
        forall i | 0 <= i < |a| - 1 ensures SameMonitor(a[1..][i], b[1..][i]) {
          assert SameMonitor(a[i + 1], b[i + 1]);
        }
      }
    }
  }

  /**
  What is hashed determines what it was made from: two contents have one normal form exactly when they are for one
  agent of one realm and have the same monitors in the same order, up to the order of keys in their configurations.
  */
  lemma ContentDeterminesMonitors(agentId: string, realmId: string, monitors: seq<MonitorConfiguration>,
                                  otherAgent: string, otherRealm: string, others: seq<MonitorConfiguration>)
    ensures Normal(Content(agentId, realmId, monitors)) == Normal(Content(otherAgent, otherRealm, others)) <==>
              agentId == otherAgent && realmId == otherRealm && SameMonitors(monitors, others)
  {
    var p, q := ContentParts(agentId, realmId, monitors), ContentParts(otherAgent, otherRealm, others);
    ContentKeysDiffer();
    FieldsOfEqual(ContentKeys(), p, q);
    MonitorItemsEqual(monitors, others);
    if forall i :: 0 <= i < 4 ==> Normal(p[i]) == Normal(q[i]) {
      assert Normal(p[1]) == Normal(q[1]) && Normal(p[2]) == Normal(q[2]) && Normal(p[3]) == Normal(q[3]);
    }
  }

  /** So the hash the agent computes equals the control plane's exactly when both hashed the same monitors. */
  lemma EqualHashIffSameMonitors(agentId: string, realmId: string, monitors: seq<MonitorConfiguration>, others: seq<MonitorConfiguration>,
                                 double: int -> int, digest: string -> string)
    requires IsDouble(double) && CollisionFree(digest)
    requires Safe(Content(agentId, realmId, monitors)) && Safe(Content(agentId, realmId, others))
    ensures SameMonitors(monitors, others) <==>
              digest(Canonical(Content(agentId, realmId, monitors), PythonStyle())) == digest(Canonical(Content(agentId, realmId, others), GoStyle(double)))
  {
    EqualHashIffEqualUpToKeyOrder(Content(agentId, realmId, monitors), Content(agentId, realmId, others), double, digest);
    ContentDeterminesMonitors(agentId, realmId, monitors, agentId, realmId, others);
  }

  ghost predicate Distinct(monitors: seq<MonitorConfiguration>) {
    forall i, j :: 0 <= i < j < |monitors| ==> monitors[i].monitorId != monitors[j].monitorId
  }

  /** Everything the agent asks of a configuration but its hash. */
  ghost predicate Acceptable(c: Response, agentId: string, realmId: string, capabilities: Capabilities) {
    && c.protocolVersion == 1 && c.schemaVersion == 1 && c.revision >= 1 && c.agentId == agentId && c.realmId == realmId
    && Distinct(c.monitors) && forall i :: 0 <= i < |c.monitors| ==> Capable(c.monitors[i], capabilities) && Schedulable(c.monitors[i])
  }

  method CheckMonitors(monitors: seq<MonitorConfiguration>, capabilities: Capabilities) returns (r: Option<Refusal>)
    ensures r.None? <==> Distinct(monitors) && forall i :: 0 <= i < |monitors| ==> Capable(monitors[i], capabilities) && Schedulable(monitors[i])
    ensures r.Some? ==> !r.value.HashDiffers?
  {
    var seen: set<string> := {};
    for i := 0 to |monitors|
      invariant seen == set k | 0 <= k < i :: monitors[k].monitorId
      invariant Distinct(monitors[..i])
      invariant forall k :: 0 <= k < i ==> Capable(monitors[k], capabilities) && Schedulable(monitors[k])
    {
      var m := monitors[i];
      if m.monitorId in seen {
        return Some(Duplicate(m.monitorId));
      }
      seen := seen + {m.monitorId};
      if m.probeType !in capabilities || !capabilities[m.probeType].available
         || m.probeSchemaVersion !in capabilities[m.probeType].schemaVersions {
        return Some(Incapable(m.monitorId));
      }
      if m.intervalSeconds < 1 || m.timeoutSeconds < 1 || m.timeoutSeconds >= m.intervalSeconds || m.missedRunPolicy != "skip" {
        return Some(BadSchedule(m.monitorId));
      }
    }
    assert monitors[..|monitors|] == monitors;
    return None;
  }

  /** `digest` is the hash in its printed form, `sameHash` the comparison that ignores case. */
  method Validate(c: Response, agentId: string, realmId: string, capabilities: Capabilities, double: int -> int,
                  digest: string -> string, sameHash: (string, string) -> bool) returns (r: Result<string, Refusal>)
    ensures r.Ok? <==> Acceptable(c, agentId, realmId, capabilities) &&
                       sameHash(digest(Canonical(Content(c.agentId, c.realmId, c.monitors), GoStyle(double))), c.contentHash)
    ensures r == Err(HashDiffers) <==> Acceptable(c, agentId, realmId, capabilities) && r.Err?
    ensures r.Ok? ==> r.value == Canonical(Content(agentId, realmId, c.monitors), GoStyle(double))
  {
    if c.protocolVersion != 1 || c.schemaVersion != 1 || c.revision < 1 {
      return Err(Unsupported);
    }
    if c.agentId != agentId || c.realmId != realmId {
      return Err(WrongIdentity);
    }
    var trouble := CheckMonitors(c.monitors, capabilities);
    if trouble.Some? {
      return Err(trouble.value);
    }
    var canonical := Canonical(Content(c.agentId, c.realmId, c.monitors), GoStyle(double));
    if !sameHash(digest(canonical), c.contentHash) {
      return Err(HashDiffers);
    }
    return Ok(canonical);
  }

  /** Printed hashes compare equal exactly when they are of one text. */
  ghost predicate TellsApart(digest: string -> string, sameHash: (string, string) -> bool) {
    forall s, t :: sameHash(digest(s), digest(t)) <==> s == t
  }

  /** An unaltered configuration passes the agent's hash check exactly when the encoders agree on its characters. */
  lemma UnalteredPassesIff(agentId: string, realmId: string, monitors: seq<MonitorConfiguration>, double: int -> int,
                           digest: string -> string, sameHash: (string, string) -> bool)
    requires IsDouble(double) && TellsApart(digest, sameHash) && Numeric(Content(agentId, realmId, monitors))
    ensures sameHash(digest(Canonical(Content(agentId, realmId, monitors), GoStyle(double))),
                     digest(Canonical(Content(agentId, realmId, monitors), PythonStyle()))) <==>
            Agreed(Content(agentId, realmId, monitors))
  {
    EncodersAgreeIff(Content(agentId, realmId, monitors), double);
  }
}
