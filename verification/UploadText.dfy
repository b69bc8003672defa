/**
Reading the text of an upload: a JSON object is cut into its members, and an array into its elements, at
the commas that stand outside texts and brackets.
*/
module UploadText {
  import opened Options
  import opened Numerals

  // ---------------------------------------------------------------- where a value ends

  /** Outside a text, inside one, or behind a backslash in one, under so many open brackets. */
  datatype Place = Outside(depth: nat) | Inside(depth: nat) | Behind(depth: nat)

  function Onward(p: Place, c: char): Place {
    match p
    case Outside(d) =>
      if c == '"' then Inside(d)
      else if c == '{' || c == '[' then Outside(d + 1)
      else if (c == '}' || c == ']') && d > 0 then Outside(d - 1)
      else p
    case Inside(d) => if c == '"' then Outside(d) else if c == '\\' then Behind(d) else p
    case Behind(d) => Inside(d)
  }

  /** A comma or a closing bracket under no open bracket belongs to what is around the value. */
  predicate Stops(p: Place, c: char) {
    p == Outside(0) && (c == ',' || c == ']' || c == '}')
  }

  /** How many characters the value at the front of `s` takes. */
  function Reach(s: string, p: Place): (n: nat)
    ensures n <= |s|
  {
    if s == "" || Stops(p, s[0]) then 0 else 1 + Reach(s[1..], Onward(p, s[0]))
  }

  /** Where reading all of `s` leads, unless it stops on the way. */
  function Across(s: string, p: Place): Option<Place> {
    if s == "" then Some(p) else if Stops(p, s[0]) then None else Across(s[1..], Onward(p, s[0]))
  }

  /** One value: no comma outside brackets and texts, and every bracket and text it opens it closes. */
  predicate Single(s: string) {
    s != "" && Across(s, Outside(0)) == Some(Outside(0))
  }

  // ---------------------------------------------------------------- reading

  /** The values up to the closing bracket, and what follows it. */
  function Elements(s: string, close: char): Option<(seq<string>, string)> {
    if s != "" && s[0] == close then Some(([], s[1..])) else Several(s, close)
  }

  function Several(s: string, close: char): Option<(seq<string>, string)>
    decreases |s|
  {
    var n := Reach(s, Outside(0));
    if n == 0 || n == |s| then None
    else if s[n] == close then Some(([s[..n]], s[n + 1..]))
    else if s[n] != ',' then None
    else
      match Several(s[n + 1..], close)
      case None => None
      case Some((more, tail)) => Some(([s[..n]] + more, tail))
  }

  /** Up to the first quotation mark or backslash. */
  function PlainRun(s: string): (n: nat)
    ensures n <= |s|
  {
    if s == "" || s[0] == '"' || s[0] == '\\' then 0 else 1 + PlainRun(s[1..])
  }

  /** A text without escapes, and what follows it. */
  function Words(s: string): Option<(string, string)> {
    if s == "" || s[0] != '"' then None
    else
      var n := 1 + PlainRun(s[1..]);
      if n < |s| && s[n] == '"' then Some((s[1..n], s[n + 1..])) else None
  }

  /** The name and the value of a member. */
  function Entry(s: string): Option<(string, string)> {
    match Words(s)
    case None => None
    case Some((name, rest)) => if rest != "" && rest[0] == ':' then Some((name, rest[1..])) else None
  }

  /** The value of the last member of that name. */
  function Lookup(members: seq<string>, name: string): Option<string> {
    if members == [] then None
    else
      var last := Entry(members[|members| - 1]);
      if last.Some? && last.value.0 == name then Some(last.value.1) else Lookup(members[..|members| - 1], name)
  }

  function Integer(s: string): Option<int> {
    if s != "" && Digits(s) then Some(ValueOf(s))
    else if |s| > 1 && s[0] == '-' && Digits(s[1..]) then Some(-ValueOf(s[1..]))
    else None
  }

  /** The members of an object that is the whole text. */
  function ObjectOf(s: string): Option<seq<string>> {
    if s == "" || s[0] != '{' then None
    else
      match Elements(s[1..], '}')
      case None => None
      case Some((members, tail)) => if tail == "" then Some(members) else None
  }

  function ArrayOf(s: string): Option<seq<string>> {
    if s == "" || s[0] != '[' then None
    else
      match Elements(s[1..], ']')
      case None => None
      case Some((items, tail)) => if tail == "" then Some(items) else None
  }

  function TextOf(s: string): Option<string> {
    match Words(s)
    case None => None
    case Some((text, tail)) => if tail == "" then Some(text) else None
  }

  function IntegerAt(members: seq<string>, name: string): Option<int> {
    match Lookup(members, name)
    case None => None
    case Some(value) => Integer(value)
  }

  function TextAt(members: seq<string>, name: string): Option<string> {
    match Lookup(members, name)
    case None => None
    case Some(value) => TextOf(value)
  }

  function ArrayAt(members: seq<string>, name: string): Option<seq<string>> {
    match Lookup(members, name)
    case None => None
    case Some(value) => ArrayOf(value)
  }

  datatype Message = Message(protocolVersion: int, schemaVersion: int, revision: int, batchId: string, observations: seq<string>)

  /** The upload a request body stands for. */
  function Read(body: string): Option<Message> {
    match ObjectOf(body)
    case None => None
    case Some(members) => Assembled(IntegerAt(members, "protocol_version"), IntegerAt(members, "result_schema_version"),
                                    IntegerAt(members, "agent_config_revision"), TextAt(members, "batch_id"),
                                    ArrayAt(members, "observations"))
  }

  function Assembled(protocolVersion: Option<int>, schemaVersion: Option<int>, revision: Option<int>,
                     batchId: Option<string>, observations: Option<seq<string>>): Option<Message>
  {
    if protocolVersion.None? || schemaVersion.None? || revision.None? || batchId.None? || observations.None? then None
    else Some(Message(protocolVersion.value, schemaVersion.value, revision.value, batchId.value, observations.value))
  }

  // ---------------------------------------------------------------- values side by side

  lemma {:induction false} AcrossJoin(a: string, b: string, p: Place)
    requires Across(a, p).Some?
    ensures Across(a + b, p) == Across(b, Across(a, p).value)
  {
    if a == "" {
      assert a + b == b;
    } else {
      assert (a + b)[1..] == a[1..] + b;
      AcrossJoin(a[1..], b, Onward(p, a[0]));
    }
  }

  lemma AcrossOne(c: char, p: Place)
    requires !Stops(p, c)
    ensures Across([c], p) == Some(Onward(p, c))
  {
    assert [c][1..] == "";
  }

  /** Reading passes over `a` whole and goes on where that leads. */
  lemma {:induction false} ReachJoin(a: string, b: string, p: Place)
    requires Across(a, p).Some?
    ensures Reach(a + b, p) == |a| + Reach(b, Across(a, p).value)
  {
    if a == "" {
      assert a + b == b;
    } else {
      assert (a + b)[1..] == a[1..] + b;
      ReachJoin(a[1..], b, Onward(p, a[0]));
    }
  }

  lemma SingleReach(a: string, c: char, rest: string)
    requires Single(a) && Stops(Outside(0), c)
    ensures Reach(a + [c] + rest, Outside(0)) == |a|
  {
    assert a + [c] + rest == a + ([c] + rest);
    ReachJoin(a, [c] + rest, Outside(0));
  }

  /** Values with commas between them. */
  function Joined(parts: seq<string>): string {
    if parts == [] then ""
    else if |parts| == 1 then parts[0]
    else Joined(parts[..|parts| - 1]) + "," + parts[|parts| - 1]
  }

  predicate Singles(parts: seq<string>) {
    forall i :: 0 <= i < |parts| ==> Single(parts[i])
  }

  lemma {:induction false} JoinedFirst(parts: seq<string>)
    requires |parts| > 1
    ensures Joined(parts) == parts[0] + "," + Joined(parts[1..])
  {
    var n := |parts| - 1;
    if n == 1 {
      assert parts[..1] == [parts[0]] && parts[1..] == [parts[1]];
    } else {
      JoinedFirst(parts[..n]);
      assert parts[..n][1..] == parts[1..][..n - 1];
      assert Joined(parts) == parts[0] + "," + (Joined(parts[1..][..n - 1]) + "," + parts[n]);
    }
  }

  lemma SeveralLast(a: string, close: char, rest: string)
    requires Single(a) && (close == ']' || close == '}')
    ensures Several(a + [close] + rest, close) == Some(([a], rest))
  {
    var s := a + [close] + rest;
    SingleReach(a, close, rest);
    assert s[..|a|] == a && s[|a| + 1..] == rest;
  }

  lemma SeveralFirst(a: string, more: string, close: char)
    requires Single(a) && close != ',' && Several(more, close).Some?
    ensures Several(a + [','] + more, close) == Some(([a] + Several(more, close).value.0, Several(more, close).value.1))
  {
    var s := a + [','] + more;
    SingleReach(a, ',', more);
    assert s[..|a|] == a && s[|a| + 1..] == more;
  }

  lemma Regrouped(a: string, b: string, close: char, rest: string)
    ensures (a + "," + b) + [close] + rest == a + [','] + (b + [close] + rest)
  {
  }

  lemma {:induction false} SeveralReadBack(parts: seq<string>, close: char, rest: string)
    requires parts != [] && Singles(parts) && (close == ']' || close == '}')
    ensures Several(Joined(parts) + [close] + rest, close) == Some((parts, rest))
    decreases |parts|
  {
    if |parts| == 1 {
      SeveralLast(parts[0], close, rest);
      assert parts == [parts[0]];
    } else {
      var more := Joined(parts[1..]) + [close] + rest;
      JoinedFirst(parts);
      Regrouped(parts[0], Joined(parts[1..]), close, rest);
      SeveralReadBack(parts[1..], close, rest);
      SeveralFirst(parts[0], more, close);
      assert parts == [parts[0]] + parts[1..];
    }
  }

  lemma SingleBegins(s: string)
    requires Single(s)
    ensures s[0] != ']' && s[0] != '}'
  {
  }

  /** Values written between brackets with commas are read back, each as it was. */
  lemma ElementsReadBack(parts: seq<string>, close: char, rest: string)
    requires Singles(parts) && (close == ']' || close == '}')
    ensures Elements(Joined(parts) + [close] + rest, close) == Some((parts, rest))
  {
    var s := Joined(parts) + [close] + rest;
    if parts == [] {
      assert s == [close] + rest;
    } else {
      if |parts| > 1 {
        JoinedFirst(parts);
      }
      SingleBegins(parts[0]);
      assert s[0] == parts[0][0];
      SeveralReadBack(parts, close, rest);
    }
  }

  // ---------------------------------------------------------------- members

  /** A text that needs no escapes. */
  predicate Plain(s: string) {
    forall i :: 0 <= i < |s| ==> s[i] != '"' && s[i] != '\\'
  }

  function Quoted(s: string): string {
    "\"" + s + "\""
  }

  function Member(name: string, value: string): string {
    Quoted(name) + ":" + value
  }

  lemma {:induction false} PlainReads(s: string, rest: string)
    requires Plain(s)
    ensures PlainRun(s + "\"" + rest) == |s|
  {
    if s == "" {
      assert s + "\"" + rest == "\"" + rest;
    } else {
      assert (s + "\"" + rest)[1..] == s[1..] + "\"" + rest;
      PlainReads(s[1..], rest);
    }
  }

  lemma QuotedReadsBack(s: string, rest: string)
    requires Plain(s)
    ensures Words(Quoted(s) + rest) == Some((s, rest))
  {
    var t := Quoted(s) + rest;
    assert t[1..] == s + "\"" + rest;
    PlainReads(s, rest);
    assert t[1..|s| + 1] == s && t[|s| + 2..] == rest;
  }

  lemma MemberReadsBack(name: string, value: string)
    requires Plain(name)
    ensures Entry(Member(name, value)) == Some((name, value))
  {
    assert Member(name, value) == Quoted(name) + (":" + value);
    QuotedReadsBack(name, ":" + value);
    assert (":" + value)[1..] == value;
  }

  lemma {:induction false} PlainAcross(s: string, d: nat)
    requires Plain(s)
    ensures Across(s, Inside(d)) == Some(Inside(d))
  {
    if s != "" {
      PlainAcross(s[1..], d);
    }
  }

  lemma QuotedIsSingle(s: string)
    requires Plain(s)
    ensures Single(Quoted(s))
  {
    PlainAcross(s, 0);
    assert Quoted(s)[1..] == s + "\"";
    AcrossJoin(s, "\"", Inside(0));
    AcrossOne('"', Inside(0));
  }

  lemma MemberIsSingle(name: string, value: string)
    requires Plain(name) && Single(value)
    ensures Single(Member(name, value))
  {
    QuotedIsSingle(name);
    assert Member(name, value) == Quoted(name) + (":" + value);
    AcrossJoin(Quoted(name), ":" + value, Outside(0));
    assert (":" + value)[1..] == value;
  }

  /** The members of an object, by name and value. */
  predicate Written(members: seq<string>, names: seq<string>, values: seq<string>) {
    && |members| == |names| == |values|
    && forall i :: 0 <= i < |members| ==> Plain(names[i]) && Single(values[i]) && members[i] == Member(names[i], values[i])
  }

  lemma {:induction false} LookupFinds(members: seq<string>, names: seq<string>, values: seq<string>, i: nat)
    requires Written(members, names, values) && i < |names| && forall j :: i < j < |names| ==> names[j] != names[i]
    ensures Lookup(members, names[i]) == Some(values[i])
  {
    var n := |members| - 1;
    MemberReadsBack(names[n], values[n]);
    if i < n {
      LookupFinds(members[..n], names[..n], values[..n], i);
    }
  }

  /** An object with its members in any order is read back member by member. */
  lemma ObjectReadsBack(members: seq<string>, names: seq<string>, values: seq<string>)
    requires Written(members, names, values)
    ensures ObjectOf("{" + Joined(members) + "}") == Some(members)
  {
    var s := "{" + Joined(members) + "}";
    forall i | 0 <= i < |members| ensures Single(members[i]) {
      MemberIsSingle(names[i], values[i]);
    }
    assert s[1..] == Joined(members) + ['}'] + "";
    ElementsReadBack(members, '}', "");
  }

  lemma ArrayReadsBack(items: seq<string>)
    requires Singles(items)
    ensures ArrayOf("[" + Joined(items) + "]") == Some(items)
  {
    var s := "[" + Joined(items) + "]";
    assert s[1..] == Joined(items) + [']'] + "";
    ElementsReadBack(items, ']', "");
  }

  lemma {:induction false} JoinedAcross(items: seq<string>, d: nat)
    requires Singles(items)
    ensures Across(Joined(items), Outside(d + 1)) == Some(Outside(d + 1))
  {
    if items != [] {
      var n := |items| - 1;
      Deeper(items[n], Outside(0), d + 1);
      if n > 0 {
        JoinedAcross(items[..n], d);
        AcrossJoin(Joined(items[..n]), "," + items[n], Outside(d + 1));
        assert Joined(items) == Joined(items[..n]) + ("," + items[n]);
        assert ("," + items[n])[1..] == items[n];
      }
    }
  }

  function Under(p: Place, d: nat): Place {
    match p
    case Outside(e) => Outside(d + e)
    case Inside(e) => Inside(d + e)
    case Behind(e) => Behind(d + e)
  }

  /** What is read without stopping is read in the same way under more brackets. */
  lemma {:induction false} Deeper(s: string, p: Place, d: nat)
    requires Across(s, p).Some?
    ensures Across(s, Under(p, d)) == Some(Under(Across(s, p).value, d))
  {
    if s != "" {
      Deeper(s[1..], Onward(p, s[0]), d);
    }
  }

  /** A bracketed list of values is one value. */
  lemma ArrayIsSingle(items: seq<string>)
    requires Singles(items)
    ensures Single("[" + Joined(items) + "]")
  {
    var s := "[" + Joined(items) + "]";
    JoinedAcross(items, 0);
    assert s[1..] == Joined(items) + "]";
    AcrossJoin(Joined(items), "]", Outside(1));
    AcrossOne(']', Outside(1));
  }

  // ---------------------------------------------------------------- integers

  lemma {:induction false} DigitsAcross(s: string)
    requires Digits(s)
    ensures Across(s, Outside(0)) == Some(Outside(0))
  {
    if s != "" {
      DigitsAcross(s[1..]);
    }
  }

  lemma DecimalIsSingle(n: int)
    ensures Single(Decimal(n))
  {
    if n < 0 {
      assert Decimal(n)[1..] == Natural(-n);
      DigitsAcross(Natural(-n));
    } else {
      DigitsAcross(Natural(n));
    }
  }

  lemma DecimalReadsBack(n: int)
    ensures Integer(Decimal(n)) == Some(n)
  {
    if n < 0 {
      assert Decimal(n)[1..] == Natural(-n);
      assert !IsDigit(Decimal(n)[0]);
      NaturalReadsBack(-n);
    } else {
      NaturalReadsBack(n);
    }
  }
}
