/**
JSON values and their canonical text: no white space, keys in order.  What the control plane and the
agent write differs in how characters are escaped and how numbers pass through the encoder.
*/
module Json {
  import opened Strings

  datatype Value = Null | Bool(b: bool) | Number(n: int) | Text(s: string) | Array(items: Items) | Object(fields: Fields)

  datatype Items = NoItem | Item(head: Value, tail: Items)

  datatype Fields = NoField | Field(key: string, value: Value, rest: Fields)

  /** How an encoder writes characters and integers. */
  datatype Style = Style(character: char -> string, number: int -> string)

  // ---------------------------------------------------------------- writing

  function Escaped(s: string, style: Style): string {
    if s == "" then "" else style.character(s[0]) + Escaped(s[1..], style)
  }

  function Quoted(s: string, style: Style): string {
    "\"" + Escaped(s, style) + "\""
  }

  function Emit(v: Value, style: Style): string
    decreases v, 0
  {
    match v
    case Null => "null"
    case Bool(b) => if b then "true" else "false"
    case Number(n) => style.number(n)
    case Text(s) => Quoted(s, style)
    case Array(items) => "[" + (if items.NoItem? then "]" else Emit(items.head, style) + EmitItems(items.tail, style))
    case Object(fields) =>
      "{" + (if fields.NoField? then "}" else EmitField(fields.key, fields.value, style) + EmitFields(fields.rest, style))
  }

  function EmitItems(items: Items, style: Style): string
    decreases items, 0
  {
    match items
    case NoItem => "]"
    case Item(head, tail) => "," + Emit(head, style) + EmitItems(tail, style)
  }

  function EmitField(key: string, value: Value, style: Style): string
    decreases value, 1
  {
    Quoted(key, style) + ":" + Emit(value, style)
  }

  function EmitFields(fields: Fields, style: Style): string
    decreases fields, 0
  {
    match fields
    case NoField => "}"
    case Field(key, value, rest) => "," + EmitField(key, value, style) + EmitFields(rest, style)
  }

  // ---------------------------------------------------------------- key order

  function Inserted(key: string, value: Value, fields: Fields): Fields {
    match fields
    case NoField => Field(key, value, NoField)
    case Field(k, v, rest) => if TextLess(k, key) then Field(k, v, Inserted(key, value, rest)) else Field(key, value, fields)
  }

  /** The value with the keys of every object in order. */
  function Normal(v: Value): Value {
    match v
    case Array(items) => Array(NormalItems(items))
    case Object(fields) => Object(NormalFields(fields))
    case _ => v
  }

  function NormalItems(items: Items): Items {
    match items
    case NoItem => NoItem
    case Item(head, tail) => Item(Normal(head), NormalItems(tail))
  }

  function NormalFields(fields: Fields): Fields {
    match fields
    case NoField => NoField
    case Field(key, value, rest) => Inserted(key, Normal(value), NormalFields(rest))
  }

  function Canonical(v: Value, style: Style): string {
    Emit(Normal(v), style)
  }

  // ---------------------------------------------------------------- objects as maps

  function AsMap(fields: Fields): map<string, Value> {
    match fields
    case NoField => map[]
    case Field(key, value, rest) => AsMap(rest)[key := value]
  }

  predicate DistinctKeys(fields: Fields) {
    fields.Field? ==> fields.key !in AsMap(fields.rest) && DistinctKeys(fields.rest)
  }

  predicate InOrder(fields: Fields) {
    fields.Field? ==> InOrder(fields.rest) && (fields.rest.Field? ==> TextLess(fields.key, fields.rest.key))
  }

  lemma {:induction false} InsertedIsMap(key: string, value: Value, fields: Fields)
    requires InOrder(fields) && key !in AsMap(fields)
    ensures InOrder(Inserted(key, value, fields)) && AsMap(Inserted(key, value, fields)) == AsMap(fields)[key := value]
  {
    if fields.Field? {
      TextTrichotomy(fields.key, key);
      if TextLess(fields.key, key) {
        InsertedIsMap(key, value, fields.rest);
      }
    }
  }

  lemma {:induction false} FirstIsLeast(fields: Fields, key: string)
    requires InOrder(fields) && key in AsMap(fields)
    ensures fields.Field? && (key == fields.key || TextLess(fields.key, key))
  {
    if key != fields.key {
      FirstIsLeast(fields.rest, key);
      if key != fields.rest.key {
        TextLessTransitive(fields.key, fields.rest.key, key);
      }
    }
  }

  lemma FirstNotLater(fields: Fields)
    requires InOrder(fields) && fields.Field?
    ensures fields.key !in AsMap(fields.rest)
  {
    if fields.key in AsMap(fields.rest) {
      FirstIsLeast(fields.rest, fields.key);
      TextTrichotomy(fields.key, fields.rest.key);
    }
  }

  /** Fields in order are determined by the map they stand for. */
  lemma {:induction false} OrderedUnique(f: Fields, g: Fields)
    requires InOrder(f) && InOrder(g) && AsMap(f) == AsMap(g)
    ensures f == g
  {
    assert (f.Field? ==> f.key in AsMap(f)) && (g.Field? ==> g.key in AsMap(g));
    if f.Field? {
      assert f.key in AsMap(g);
      FirstIsLeast(g, f.key);
      assert g.key in AsMap(f);
      FirstIsLeast(f, g.key);
      TextTrichotomy(f.key, g.key);
      FirstNotLater(f);
      FirstNotLater(g);
      assert AsMap(f.rest) == AsMap(f) - {f.key} && AsMap(g.rest) == AsMap(g) - {g.key};
      assert AsMap(f)[f.key] == f.value && AsMap(g)[f.key] == g.value;
      OrderedUnique(f.rest, g.rest);
    }
  }

  function NormalMap(fields: Fields): map<string, Value> {
    match fields
    case NoField => map[]
    case Field(key, value, rest) => NormalMap(rest)[key := Normal(value)]
  }

  lemma {:induction false} NormalFieldsIsMap(fields: Fields)
    requires DistinctKeys(fields)
    ensures InOrder(NormalFields(fields)) && AsMap(NormalFields(fields)) == NormalMap(fields) && NormalMap(fields).Keys == AsMap(fields).Keys
  {
    if fields.Field? {
      NormalFieldsIsMap(fields.rest);
      InsertedIsMap(fields.key, Normal(fields.value), NormalFields(fields.rest));
    }
  }

  /** Two objects have one normal form exactly when they are the same map of keys to normal values. */
  lemma NormalIgnoresOrder(f: Fields, g: Fields)
    requires DistinctKeys(f) && DistinctKeys(g)
    ensures Normal(Object(f)) == Normal(Object(g)) <==> NormalMap(f) == NormalMap(g)
  {
    NormalFieldsIsMap(f);
    NormalFieldsIsMap(g);
    if NormalMap(f) == NormalMap(g) {
      OrderedUnique(NormalFields(f), NormalFields(g));
    }
  }
}
