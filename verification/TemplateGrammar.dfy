/**
The grammar of balanced templates, on the fields of tokens: which kinds open and close elements, how the
two tags of an element agree, where an else may stand, and which tags close themselves.
*/
module TemplateGrammar {
  import opened Tokens

  const DJANGO_BLOCKS: set<string> :=
    {"autoescape", "block", "comment", "for", "if", "ifequal", "macro", "verbatim", "blocktrans", "trans", "raw", "with"}

  const VOID_TAGS: set<string> :=
    {"area", "base", "br", "col", "command", "embed", "hr", "img", "input", "keygen", "link", "meta", "param",
     "source", "track", "wbr"}

  // ---------------------------------------------------------------- tags

  predicate Opening(t: Token) {
    || t.kind == HandlebarsStart || t.kind == HandlebarsPartialBlock || t.kind == HtmlStart
    || ((t.kind == DjangoStart || t.kind == JinjaStrippedStart || t.kind == JinjaStrippedType2Start) && t.tag in DJANGO_BLOCKS)
  }

  predicate Closing(t: Token) {
    || t.kind == DjangoElse || t.kind == DjangoEnd || t.kind == HandlebarsElse || t.kind == HandlebarsEnd
    || t.kind == HtmlEnd || t.kind == JinjaStrippedEnd
  }

  /** The tag is `name` with tildes around it, which are not part of it. */
  predicate NamedFrom(tag: string, name: string, i: nat) {
    && i + |name| <= |tag| && tag[i..i + |name|] == name
    && (forall k :: 0 <= k < |tag| && (k < i || i + |name| <= k) ==> tag[k] == '~')
    && (name != "" ==> name[0] != '~' && name[|name| - 1] != '~')
  }

  ghost predicate Named(tag: string, name: string) {
    exists i: nat :: NamedFrom(tag, name, i)
  }

  ghost predicate NamesAgree(a: string, b: string) {
    exists name :: Named(a, name) && Named(b, name)
  }

  /** A code element that ends on the line below its start. */
  ghost predicate SplitCode(start: Token, end: Token) {
    Named(start.tag, "code") && end.line == start.line + 1
  }

  /** An else may stand directly inside the element. */
  ghost predicate TakesElse(start: Token) {
    Named(start.tag, "if") || Named(start.tag, "else") || Named(start.tag, "unless")
  }

  /** Some element open around us is a math or svg element. */
  ghost predicate InForeign(around: seq<Token>) {
    exists k :: 0 <= k < |around| && (Named(around[k].tag, "math") || Named(around[k].tag, "svg"))
  }

  // ---------------------------------------------------------------- the grammar

  /** A derivation: what stands between a start tag and its end, or the whole template. */
  datatype Forest =
    | Nil
    | Leaf(token: Token, rest: Forest)
    | Branch(token: Token, rest: Forest)                                  // an else, directly inside its element
    | Element(start: Token, body: Forest, end: Token, rest: Forest)

  function Yield(f: Forest): seq<Token> {
    match f
    case Nil => []
    case Leaf(t, rest) => [t] + Yield(rest)
    case Branch(t, rest) => [t] + Yield(rest)
    case Element(start, body, end, rest) => [start] + Yield(body) + [end] + Yield(rest)
  }

  /** `f` may stand inside the elements started by `around`, outermost first. */
  ghost predicate Template(f: Forest, around: seq<Token>) {
    match f
    case Nil => true
    case Leaf(t, rest) =>
      && !Opening(t) && !Closing(t)
      && (t.kind == HtmlSingleton && t.tag !in VOID_TAGS ==> InForeign(around))
      && Template(rest, around)
    case Branch(t, rest) =>
      && Closing(t) && t.tag == "else" && around != [] && TakesElse(around[|around| - 1])
      && Template(rest, around)
    case Element(start, body, end, rest) =>
      && Opening(start) && Closing(end) && end.tag != "else"
      && NamesAgree(start.tag, end.tag) && !SplitCode(start, end)
      && (start.kind == HtmlStart && start.tag in VOID_TAGS ==> InForeign(around))
      && Template(body, around + [start]) && Template(rest, around)
  }

  ghost predicate IsTemplate(tokens: seq<Token>) {
    exists f :: Template(f, []) && Yield(f) == tokens
  }

  // ---------------------------------------------------------------- names

  lemma NameUnique(tag: string, a: string, b: string, i: nat, j: nat)
    requires NamedFrom(tag, a, i) && NamedFrom(tag, b, j)
    ensures a == b
  {
    if a != "" && b != "" {
      assert tag[i] == a[0] && tag[j] == b[0];
      assert i == j;
      assert tag[i + |a| - 1] == a[|a| - 1] && tag[j + |b| - 1] == b[|b| - 1];
      assert |a| == |b|;
    }
  }

  lemma {:induction false} TrimLeftIs(s: string) returns (i: nat)
    ensures i <= |s| && TrimLeft(s, {'~'}) == s[i..] && (forall k :: 0 <= k < i ==> s[k] == '~') && (i < |s| ==> s[i] != '~')
  {
    if s != "" && s[0] == '~' {
      var j := TrimLeftIs(s[1..]);
      i := j + 1;
      assert s[1..][j..] == s[i..];
      assert forall k :: 1 <= k < i ==> s[k] == s[1..][k - 1];
    } else {
      i := 0;
      assert s[0..] == s;
    }
  }

  lemma {:induction false} TrimRightIs(s: string) returns (n: nat)
    ensures n <= |s| && TrimRight(s, {'~'}) == s[..n] && (forall k :: n <= k < |s| ==> s[k] == '~') && (n > 0 ==> s[n - 1] != '~')
  {
    if s != "" && s[|s| - 1] == '~' {
      n := TrimRightIs(s[..|s| - 1]);
      assert s[..|s| - 1][..n] == s[..n];
    } else {
      n := |s|;
      assert s[..n] == s;
    }
  }

  /** Stripping the tildes off a tag gives its name, and nothing else is its name. */
  lemma NameIs(tag: string, name: string)
    ensures Named(tag, name) <==> Trim(tag, {'~'}) == name
  {
    var i := TrimLeftIs(tag);
    var rest := tag[i..];
    var n := TrimRightIs(rest);
    var trimmed := rest[..n];
    assert trimmed == Trim(tag, {'~'}) && tag[i..i + n] == trimmed;
    assert forall k :: 0 <= k < |tag| && i + |trimmed| <= k ==> tag[k] == rest[k - i];
    assert NamedFrom(tag, trimmed, i);
    if j: nat :| NamedFrom(tag, name, j) {
      NameUnique(tag, name, trimmed, j, i);
    }
  }
}
