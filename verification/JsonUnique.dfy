/** The canonical text of a value determines the value up to the order of keys. */
module JsonUnique {
  import opened Numerals
  import opened Json

  predicate Printable(c: char) {
    ' ' <= c <= '~'
  }

  /** How a printable character is written inside quotes. */
  function Escape(c: char): string {
    if c == '"' || c == '\\' then ['\\', c] else [c]
  }

  predicate PlainText(s: string) {
    forall i :: 0 <= i < |s| ==> Printable(s[i])
  }

  /** Every text and key of the value satisfies `p`, and every number `q`. */
  predicate All(v: Value, p: string -> bool, q: int -> bool) {
    match v
    case Number(n) => q(n)
    case Text(s) => p(s)
    case Array(items) => AllItems(items, p, q)
    case Object(fields) => AllFields(fields, p, q)
    case _ => true
  }

  predicate AllItems(items: Items, p: string -> bool, q: int -> bool) {
    items.Item? ==> All(items.head, p, q) && AllItems(items.tail, p, q)
  }

  predicate AllFields(fields: Fields, p: string -> bool, q: int -> bool) {
    fields.Field? ==> p(fields.key) && All(fields.value, p, q) && AllFields(fields.rest, p, q)
  }

  lemma {:induction false} InsertedAll(key: string, value: Value, fields: Fields, p: string -> bool, q: int -> bool)
    ensures AllFields(Inserted(key, value, fields), p, q) <==> p(key) && All(value, p, q) && AllFields(fields, p, q)
  {
    if fields.Field? {
      InsertedAll(key, value, fields.rest, p, q);
    }
  }

  /** Ordering the keys neither adds nor loses a text, a key or a number. */
  lemma {:induction false} NormalAll(v: Value, p: string -> bool, q: int -> bool)
    ensures All(Normal(v), p, q) <==> All(v, p, q)
  {
    match v
    case Array(items) => NormalAllItems(items, p, q);
    case Object(fields) => NormalAllFields(fields, p, q);
    case _ =>
  }

  lemma {:induction false} NormalAllItems(items: Items, p: string -> bool, q: int -> bool)
    ensures AllItems(NormalItems(items), p, q) <==> AllItems(items, p, q)
  {
    if items.Item? {
      NormalAll(items.head, p, q);
      NormalAllItems(items.tail, p, q);
    }
  }

  lemma {:induction false} NormalAllFields(fields: Fields, p: string -> bool, q: int -> bool)
    ensures AllFields(NormalFields(fields), p, q) <==> AllFields(fields, p, q)
  {
    if fields.Field? {
      NormalAll(fields.value, p, q);
      NormalAllFields(fields.rest, p, q);
      InsertedAll(fields.key, Normal(fields.value), NormalFields(fields.rest), p, q);
    }
  }

  // ---------------------------------------------------------------- telling values apart

  /** A style that writes printable characters and the numbers in `q` in the standard way. */
  ghost predicate Standard(style: Style, q: int -> bool) {
    && (forall c :: Printable(c) ==> style.character(c) == Escape(c))
    && (forall n :: q(n) ==> style.number(n) == Decimal(n))
  }

  lemma EscapeUnique(c: char, d: char, x: string, y: string)
    requires Escape(c) + x == Escape(d) + y
    ensures c == d && x == y
  {
    assert (Escape(c) + x)[0] == Escape(c)[0] && (Escape(d) + y)[0] == Escape(d)[0];
    assert |Escape(c)| == 2 ==> (Escape(c) + x)[1] == c;
    assert |Escape(d)| == 2 ==> (Escape(d) + y)[1] == d;
    SplitAt(Escape(c), Escape(d), x, y);
  }

  lemma EscapeIsNoQuote(c: char, x: string, y: string)
    ensures Escape(c) + x != ['"'] + y
  {
    assert (Escape(c) + x)[0] == Escape(c)[0];
  }

  lemma {:induction false} EscapedUnique(s: string, t: string, x: string, y: string, style: Style, q: int -> bool)
    requires Standard(style, q) && PlainText(s) && PlainText(t)
    requires Escaped(s, style) + (['"'] + x) == Escaped(t, style) + (['"'] + y)
    ensures s == t && x == y
  {
    var a, b := ['"'] + x, ['"'] + y;
    if s == "" || t == "" {
      if s != "" {
        assert Escaped(s, style) + a == Escape(s[0]) + (Escaped(s[1..], style) + a);
        EscapeIsNoQuote(s[0], Escaped(s[1..], style) + a, y);
      } else if t != "" {
        assert Escaped(t, style) + b == Escape(t[0]) + (Escaped(t[1..], style) + b);
        EscapeIsNoQuote(t[0], Escaped(t[1..], style) + b, x);
      }
      assert Escaped("", style) + a == a && Escaped("", style) + b == b;
      Behind('"', x, y);
    } else {
      assert Escaped(s, style) + a == Escape(s[0]) + (Escaped(s[1..], style) + a);
      assert Escaped(t, style) + b == Escape(t[0]) + (Escaped(t[1..], style) + b);
      EscapeUnique(s[0], t[0], Escaped(s[1..], style) + a, Escaped(t[1..], style) + b);
      EscapedUnique(s[1..], t[1..], x, y, style, q);
      assert s == [s[0]] + s[1..] && t == [t[0]] + t[1..];
    }
  }

  /** The character a value's text begins with. */
  function Lead(v: Value): char {
    match v
    case Null => 'n'
    case Bool(b) => if b then 't' else 'f'
    case Number(n) => Decimal(n)[0]
    case Text(_) => '"'
    case Array(_) => '['
    case Object(_) => '{'
  }

  lemma Leads(v: Value, x: string, style: Style, q: int -> bool)
    requires Standard(style, q) && All(v, PlainText, q)
    ensures |Emit(v, style) + x| > 0 && (Emit(v, style) + x)[0] == Lead(v)
  {
  }

  /** Values whose texts begin alike are of one kind. */
  lemma SameLead(a: Value, b: Value)
    requires Lead(a) == Lead(b)
    ensures a.Number? == b.Number? && a.Null? == b.Null? && a.Bool? == b.Bool? && a.Text? == b.Text? && a.Array? == b.Array? && a.Object? == b.Object?
    ensures a.Bool? ==> a == b
    ensures Lead(a) != ']' && Lead(a) != '}'
  {
  }

  lemma LeadIsNoEnd(v: Value)
    ensures Lead(v) != ']' && Lead(v) != '}' && Lead(v) != ','
  {
  }

  /** What may follow a value in a larger text. */
  predicate Ends(x: string) {
    x == "" || x[0] == ',' || x[0] == ']' || x[0] == '}'
  }

  lemma QuotedText(s: string, x: string, style: Style)
    ensures Quoted(s, style) + x == ['"'] + (Escaped(s, style) + (['"'] + x))
  {
  }

  lemma QuotedUnique(s: string, t: string, x: string, y: string, style: Style, q: int -> bool)
    requires Standard(style, q) && PlainText(s) && PlainText(t) && Quoted(s, style) + x == Quoted(t, style) + y
    ensures s == t && x == y
  {
    QuotedText(s, x, style);
    QuotedText(t, y, style);
    Behind('"', Escaped(s, style) + (['"'] + x), Escaped(t, style) + (['"'] + y));
    EscapedUnique(s, t, x, y, style, q);
  }

  lemma {:induction false} EmitUnique(a: Value, b: Value, x: string, y: string, style: Style, q: int -> bool)
    requires Standard(style, q) && All(a, PlainText, q) && All(b, PlainText, q) && Ends(x) && Ends(y)
    requires Emit(a, style) + x == Emit(b, style) + y
    ensures a == b && x == y
    decreases a, 1
  {
    Leads(a, x, style, q);
    Leads(b, y, style, q);
    SameLead(a, b);
    match a
    case Null => SplitAt(Emit(a, style), Emit(b, style), x, y);
    case Bool(_) => SplitAt(Emit(a, style), Emit(b, style), x, y);
    case Number(n) => DecimalUnique(n, b.n, x, y);
    case Text(s) => QuotedUnique(s, b.s, x, y, style, q);
    case Array(items) => ArrayUnique(items, b.items, x, y, style, q);
    case Object(fields) => ObjectUnique(fields, b.fields, x, y, style, q);
  }

  function ArrayBody(items: Items, style: Style): string {
    if items.NoItem? then "]" else Emit(items.head, style) + EmitItems(items.tail, style)
  }

  lemma ArrayText(items: Items, x: string, style: Style)
    ensures Emit(Array(items), style) + x == ['['] + (ArrayBody(items, style) + x)
    ensures items.Item? ==> ArrayBody(items, style) + x == Emit(items.head, style) + (EmitItems(items.tail, style) + x)
  {
  }

  lemma {:induction false} ArrayUnique(a: Items, b: Items, x: string, y: string, style: Style, q: int -> bool)
    requires Standard(style, q) && AllItems(a, PlainText, q) && AllItems(b, PlainText, q)
    requires Emit(Array(a), style) + x == Emit(Array(b), style) + y
    ensures a == b && x == y
    decreases a, 1
  {
    ArrayText(a, x, style);
    ArrayText(b, y, style);
    Behind('[', ArrayBody(a, style) + x, ArrayBody(b, style) + y);
    if a.Item? {
      Leads(a.head, EmitItems(a.tail, style) + x, style, q);
      LeadIsNoEnd(a.head);
    }
    if b.Item? {
      Leads(b.head, EmitItems(b.tail, style) + y, style, q);
      LeadIsNoEnd(b.head);
    }
    if a.Item? {
      EmitUnique(a.head, b.head, EmitItems(a.tail, style) + x, EmitItems(b.tail, style) + y, style, q);
      ItemsUnique(a.tail, b.tail, x, y, style, q);
    } else {
      Behind(']', x, y);
    }
  }

  lemma ItemsText(items: Items, x: string, style: Style)
    ensures items.Item? ==> EmitItems(items, style) + x == [','] + (Emit(items.head, style) + (EmitItems(items.tail, style) + x))
    ensures (EmitItems(items, style) + x)[0] == if items.Item? then ',' else ']'
  {
  }

  lemma {:induction false} ItemsUnique(a: Items, b: Items, x: string, y: string, style: Style, q: int -> bool)
    requires Standard(style, q) && AllItems(a, PlainText, q) && AllItems(b, PlainText, q)
    requires EmitItems(a, style) + x == EmitItems(b, style) + y
    ensures a == b && x == y
    decreases a, 0
  {
    ItemsText(a, x, style);
    ItemsText(b, y, style);
    if a.Item? {
      var p, r := EmitItems(a.tail, style) + x, EmitItems(b.tail, style) + y;
      ItemsText(a.tail, x, style);
      ItemsText(b.tail, y, style);
      Behind(',', Emit(a.head, style) + p, Emit(b.head, style) + r);
      EmitUnique(a.head, b.head, p, r, style, q);
      ItemsUnique(a.tail, b.tail, x, y, style, q);
    } else {
      Behind(']', x, y);
    }
  }

  function ObjectBody(fields: Fields, style: Style): string {
    if fields.NoField? then "}" else EmitField(fields.key, fields.value, style) + EmitFields(fields.rest, style)
  }

  lemma FieldText(key: string, value: Value, x: string, style: Style)
    ensures EmitField(key, value, style) + x == Quoted(key, style) + ([':'] + (Emit(value, style) + x))
    ensures (EmitField(key, value, style) + x)[0] == '"'
  {
  }

  lemma {:induction false} FieldUnique(k: string, v: Value, l: string, w: Value, x: string, y: string, style: Style, q: int -> bool)
    requires Standard(style, q) && PlainText(k) && PlainText(l) && All(v, PlainText, q) && All(w, PlainText, q) && Ends(x) && Ends(y)
    requires EmitField(k, v, style) + x == EmitField(l, w, style) + y
    ensures k == l && v == w && x == y
    decreases v, 2
  {
    FieldText(k, v, x, style);
    FieldText(l, w, y, style);
    QuotedUnique(k, l, [':'] + (Emit(v, style) + x), [':'] + (Emit(w, style) + y), style, q);
    Behind(':', Emit(v, style) + x, Emit(w, style) + y);
    EmitUnique(v, w, x, y, style, q);
  }

  lemma ObjectText(fields: Fields, x: string, style: Style)
    ensures Emit(Object(fields), style) + x == ['{'] + (ObjectBody(fields, style) + x)
    ensures fields.Field? ==> ObjectBody(fields, style) + x == EmitField(fields.key, fields.value, style) + (EmitFields(fields.rest, style) + x)
    ensures (ObjectBody(fields, style) + x)[0] == if fields.Field? then '"' else '}'
  {
  }

  lemma FieldsText(fields: Fields, x: string, style: Style)
    ensures fields.Field? ==>
              EmitFields(fields, style) + x == [','] + (EmitField(fields.key, fields.value, style) + (EmitFields(fields.rest, style) + x))
    ensures (EmitFields(fields, style) + x)[0] == if fields.Field? then ',' else '}'
  {
  }

  lemma {:induction false} ObjectUnique(a: Fields, b: Fields, x: string, y: string, style: Style, q: int -> bool)
    requires Standard(style, q) && AllFields(a, PlainText, q) && AllFields(b, PlainText, q)
    requires Emit(Object(a), style) + x == Emit(Object(b), style) + y
    ensures a == b && x == y
    decreases a, 1
  {
    ObjectText(a, x, style);
    ObjectText(b, y, style);
    Behind('{', ObjectBody(a, style) + x, ObjectBody(b, style) + y);
    if a.Field? {
      var p, r := EmitFields(a.rest, style) + x, EmitFields(b.rest, style) + y;
      FieldsText(a.rest, x, style);
      FieldsText(b.rest, y, style);
      FieldUnique(a.key, a.value, b.key, b.value, p, r, style, q);
      FieldsUnique(a.rest, b.rest, x, y, style, q);
    } else {
      Behind('}', x, y);
    }
  }

  lemma {:induction false} FieldsUnique(a: Fields, b: Fields, x: string, y: string, style: Style, q: int -> bool)
    requires Standard(style, q) && AllFields(a, PlainText, q) && AllFields(b, PlainText, q)
    requires EmitFields(a, style) + x == EmitFields(b, style) + y
    ensures a == b && x == y
    decreases a, 0
  {
    FieldsText(a, x, style);
    FieldsText(b, y, style);
    if a.Field? {
      var p, r := EmitFields(a.rest, style) + x, EmitFields(b.rest, style) + y;
      FieldsText(a.rest, x, style);
      FieldsText(b.rest, y, style);
      Behind(',', EmitField(a.key, a.value, style) + p, EmitField(b.key, b.value, style) + r);
      FieldUnique(a.key, a.value, b.key, b.value, p, r, style, q);
      FieldsUnique(a.rest, b.rest, x, y, style, q);
    } else {
      Behind('}', x, y);
    }
  }

  /** Canonical texts are equal exactly when the values are, up to the order of keys. */
  lemma CanonicalUnique(a: Value, b: Value, style: Style, q: int -> bool)
    requires Standard(style, q) && All(a, PlainText, q) && All(b, PlainText, q)
    ensures Canonical(a, style) == Canonical(b, style) <==> Normal(a) == Normal(b)
  {
    NormalAll(a, PlainText, q);
    NormalAll(b, PlainText, q);
    if Canonical(a, style) == Canonical(b, style) {
      assert Emit(Normal(a), style) + "" == Emit(Normal(b), style) + "";
      EmitUnique(Normal(a), Normal(b), "", "", style, q);
    }
  }
}
