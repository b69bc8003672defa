/** Whatever JSON value an encoder writes is one value to the reader of uploads. */
module PayloadText {
  import opened Options
  import opened Numerals
  import opened UploadText
  import Json
  import CanonicalJson

  /** Characters of a text stay inside it, and numbers are values of their own. */
  ghost predicate Proper(style: Json.Style) {
    && (forall c, d: nat :: Across(style.character(c), Inside(d)) == Some(Inside(d)))
    && (forall n :: Single(style.number(n)))
  }

  /** Read under any open brackets, the text ends where it began. */
  ghost predicate Whole(s: string) {
    forall d: nat :: Across(s, Outside(d)) == Some(Outside(d))
  }

  lemma WholeJoin(a: string, b: string)
    requires Whole(a) && Whole(b)
    ensures Whole(a + b)
  {
    forall d: nat ensures Across(a + b, Outside(d)) == Some(Outside(d)) {
      AcrossJoin(a, b, Outside(d));
    }
  }

  lemma SingleIsWhole(s: string)
    requires Single(s)
    ensures Whole(s)
  {
    forall d: nat ensures Across(s, Outside(d)) == Some(Outside(d)) {
      assert Under(Outside(0), d) == Outside(d);
      Deeper(s, Outside(0), d);
    }
  }

  /** Brackets around what is read whole, or closes them itself, make it whole. */
  lemma Bracketed(open: char, s: string)
    requires (open == '[' || open == '{') && Closes(s)
    ensures Whole([open] + s)
  {
    forall d: nat ensures Across([open] + s, Outside(d)) == Some(Outside(d)) {
      assert ([open] + s)[1..] == s;
    }
  }

  /** Read under an open bracket, the text closes it at its end. */
  ghost predicate Closes(s: string) {
    forall d: nat :: Across(s, Outside(d + 1)) == Some(Outside(d))
  }

  lemma ClosesJoin(a: string, b: string)
    requires Whole(a) && Closes(b)
    ensures Closes(a + b)
  {
    forall d: nat ensures Across(a + b, Outside(d + 1)) == Some(Outside(d)) {
      AcrossJoin(a, b, Outside(d + 1));
    }
  }

  lemma CommaCloses(s: string)
    requires Closes(s)
    ensures Closes("," + s)
  {
    forall d: nat ensures Across("," + s, Outside(d + 1)) == Some(Outside(d)) {
      assert ("," + s)[1..] == s;
    }
  }

  lemma ColonWhole(s: string)
    requires Whole(s)
    ensures Whole(":" + s)
  {
    forall d: nat ensures Across(":" + s, Outside(d)) == Some(Outside(d)) {
      assert (":" + s)[1..] == s;
    }
  }

  lemma CloserCloses()
    ensures Closes("]") && Closes("}")
  {
    forall d: nat ensures Across("]", Outside(d + 1)) == Some(Outside(d)) && Across("}", Outside(d + 1)) == Some(Outside(d)) {
      AcrossOne(']', Outside(d + 1));
      AcrossOne('}', Outside(d + 1));
    }
  }

  lemma {:induction false} EscapedAcross(s: string, style: Json.Style, d: nat)
    requires Proper(style)
    ensures Across(Json.Escaped(s, style), Inside(d)) == Some(Inside(d))
  {
    if s != "" {
      EscapedAcross(s[1..], style, d);
      AcrossJoin(style.character(s[0]), Json.Escaped(s[1..], style), Inside(d));
    }
  }

  lemma TextWhole(s: string, style: Json.Style)
    requires Proper(style)
    ensures Whole(Json.Quoted(s, style))
  {
    var q, e := Json.Quoted(s, style), Json.Escaped(s, style);
    forall d: nat ensures Across(q, Outside(d)) == Some(Outside(d)) {
      EscapedAcross(s, style, d);
      assert q[1..] == e + "\"";
      AcrossJoin(e, "\"", Inside(d));
      AcrossOne('"', Inside(d));
    }
  }

  lemma {:induction false} LettersWhole(s: string)
    requires forall i :: 0 <= i < |s| ==> 'a' <= s[i] <= 'z'
    ensures Whole(s)
  {
    forall d: nat ensures Across(s, Outside(d)) == Some(Outside(d)) {
      if s != "" {
        LettersWhole(s[1..]);
        assert Onward(Outside(d), s[0]) == Outside(d);
      }
    }
  }

  lemma {:induction false} EmitWhole(v: Json.Value, style: Json.Style)
    requires Proper(style)
    ensures Whole(Json.Emit(v, style))
    decreases v, 0
  {
    match v
    case Null => LettersWhole("null");
    case Bool(b) => LettersWhole(if b then "true" else "false");
    case Number(n) => SingleIsWhole(style.number(n));
    case Text(s) => TextWhole(s, style);
    case Array(items) =>
      CloserCloses();
      if items.Item? {
        EmitWhole(items.head, style);
        ItemsClose(items.tail, style);
        ClosesJoin(Json.Emit(items.head, style), Json.EmitItems(items.tail, style));
        Bracketed('[', Json.Emit(items.head, style) + Json.EmitItems(items.tail, style));
      } else {
        Bracketed('[', "]");
      }
    case Object(fields) =>
      CloserCloses();
      if fields.Field? {
        FieldWhole(fields.key, fields.value, style);
        FieldsClose(fields.rest, style);
        ClosesJoin(Json.EmitField(fields.key, fields.value, style), Json.EmitFields(fields.rest, style));
        Bracketed('{', Json.EmitField(fields.key, fields.value, style) + Json.EmitFields(fields.rest, style));
      } else {
        Bracketed('{', "}");
      }
  }

  lemma {:induction false} ItemsClose(items: Json.Items, style: Json.Style)
    requires Proper(style)
    ensures Closes(Json.EmitItems(items, style))
    decreases items, 0
  {
    CloserCloses();
    if items.Item? {
      EmitWhole(items.head, style);
      ItemsClose(items.tail, style);
      ClosesJoin(Json.Emit(items.head, style), Json.EmitItems(items.tail, style));
      CommaCloses(Json.Emit(items.head, style) + Json.EmitItems(items.tail, style));
      assert Json.EmitItems(items, style) == "," + (Json.Emit(items.head, style) + Json.EmitItems(items.tail, style));
    }
  }

  lemma {:induction false} FieldWhole(key: string, value: Json.Value, style: Json.Style)
    requires Proper(style)
    ensures Whole(Json.EmitField(key, value, style))
    decreases value, 1
  {
    TextWhole(key, style);
    EmitWhole(value, style);
    ColonWhole(Json.Emit(value, style));
    WholeJoin(Json.Quoted(key, style), ":" + Json.Emit(value, style));
    assert Json.EmitField(key, value, style) == Json.Quoted(key, style) + (":" + Json.Emit(value, style));
  }

  lemma {:induction false} FieldsClose(fields: Json.Fields, style: Json.Style)
    requires Proper(style)
    ensures Closes(Json.EmitFields(fields, style))
    decreases fields, 0
  {
    CloserCloses();
    if fields.Field? {
      FieldWhole(fields.key, fields.value, style);
      FieldsClose(fields.rest, style);
      var field, rest := Json.EmitField(fields.key, fields.value, style), Json.EmitFields(fields.rest, style);
      ClosesJoin(field, rest);
      CommaCloses(field + rest);
      assert Json.EmitFields(fields, style) == "," + (field + rest);
    }
  }

  // ---------------------------------------------------------------- the two encoders

  lemma EscapeStays(s: string, d: nat)
    requires |s| >= 2 && s[0] == '\\' && Plain(s[2..])
    ensures Across(s, Inside(d)) == Some(Inside(d))
  {
    assert s[1..][1..] == s[2..];
    PlainAcross(s[2..], d);
  }

  lemma UnitStays(n: nat, d: nat)
    requires n < 0x10000
    ensures Across(CanonicalJson.Unit(n), Inside(d)) == Some(Inside(d))
  {
    EscapeStays(CanonicalJson.Unit(n), d);
  }

  lemma UnicodeStays(c: char, d: nat)
    ensures Across(CanonicalJson.UnicodeEscape(c), Inside(d)) == Some(Inside(d))
  {
    var n := c as int;
    if n < 0x10000 {
      UnitStays(n, d);
    } else {
      UnitStays(0xd800 + (n - 0x10000) / 1024, d);
      UnitStays(0xdc00 + (n - 0x10000) % 1024, d);
      AcrossJoin(CanonicalJson.Unit(0xd800 + (n - 0x10000) / 1024), CanonicalJson.Unit(0xdc00 + (n - 0x10000) % 1024), Inside(d));
    }
  }

  lemma CharStays(c: char, d: nat)
    ensures Across(CanonicalJson.PythonChar(c), Inside(d)) == Some(Inside(d))
    ensures Across(CanonicalJson.GoChar(c), Inside(d)) == Some(Inside(d))
  {
    UnicodeStays(c, d);
    if CanonicalJson.Short(c).Some? {
      EscapeStays(CanonicalJson.GoChar(c), d);
    } else {
      PlainAcross([c], d);
    }
  }

  lemma PythonProper()
    ensures Proper(CanonicalJson.PythonStyle())
  {
    var style := CanonicalJson.PythonStyle();
    forall c, d: nat ensures Across(style.character(c), Inside(d)) == Some(Inside(d)) {
      CharStays(c, d);
      assert style.character(c) == CanonicalJson.PythonChar(c);
    }
    forall n ensures Single(style.number(n)) {
      DecimalIsSingle(n);
    }
  }

  lemma GoProper(double: int -> int)
    ensures Proper(CanonicalJson.GoStyle(double))
  {
    var style := CanonicalJson.GoStyle(double);
    forall c, d: nat ensures Across(style.character(c), Inside(d)) == Some(Inside(d)) {
      CharStays(c, d);
      assert style.character(c) == CanonicalJson.GoChar(c);
    }
    forall n ensures Single(style.number(n)) {
      DecimalIsSingle(double(n));
      assert style.number(n) == Decimal(double(n));
    }
  }

  lemma EmitSingle(v: Json.Value, style: Json.Style)
    requires Proper(style)
    ensures Single(Json.Emit(v, style))
  {
    EmitWhole(v, style);
    match v
    case Number(n) => assert Single(style.number(n));
    case Null =>
    case Bool(_) =>
    case Text(_) =>
    case Array(_) =>
    case Object(_) =>
  }

  /** A JSON value as either side writes it is read as one value: commas and brackets in its texts do no harm. */
  lemma EveryValueIsSingle(v: Json.Value, double: int -> int)
    ensures Single(Json.Emit(v, CanonicalJson.PythonStyle())) && Single(Json.Emit(v, CanonicalJson.GoStyle(double)))
  {
    PythonProper();
    GoProper(double);
    EmitSingle(v, CanonicalJson.PythonStyle());
    EmitSingle(v, CanonicalJson.GoStyle(double));
  }
}
