/**
How a printed template is laid out: which tokens begin a line, which element each of them stands in, how far
their lines are indented, and what is printed of a token that spans several lines.
*/
module Layout {
  import opened Options
  import opened Tokens
  import opened Scanners
  import opened LineEnds

  // ---------------------------------------------------------------- lines of a text

  function Split(s: string): (r: seq<string>)
    ensures |r| >= 1
  {
    if s == "" then [""]
    else if s[0] == '\n' then [""] + Split(s[1..])
    else [[s[0]] + Split(s[1..])[0]] + Split(s[1..])[1..]
  }

  function JoinLines(lines: seq<string>): string {
    if |lines| == 0 then "" else if |lines| == 1 then lines[0] else lines[0] + "\n" + JoinLines(lines[1..])
  }

  lemma {:induction false} SplitJoins(s: string)
    ensures JoinLines(Split(s)) == s
    ensures forall k :: 0 <= k < |Split(s)| ==> OneLine(Split(s)[k])
    ensures '\n' in s ==> |Split(s)| >= 2
  {
    if s != "" {
      var r := Split(s[1..]);
      SplitJoins(s[1..]);
      if s[0] == '\n' {
        assert Split(s)[1..] == r;
      } else {
        var t := Split(s);
        assert t[1..] == r[1..];
        assert t[0] == [s[0]] + r[0];
        assert JoinLines(t) == [s[0]] + JoinLines(r);
      }
    }
  }

  lemma {:induction false} SplitFirst(a: string, b: string)
    requires OneLine(a)
    ensures Split(a + "\n" + b) == [a] + Split(b)
  {
    if a == "" {
      assert a + "\n" + b == "\n" + b;
      assert ("\n" + b)[1..] == b;
    } else {
      var s := a + "\n" + b;
      assert s[1..] == a[1..] + "\n" + b;
      SplitFirst(a[1..], b);
      assert [a[0]] + a[1..] == a;
    }
  }

  lemma {:induction false} SplitOne(a: string)
    requires OneLine(a)
    ensures Split(a) == [a]
  {
    if a != "" {
      SplitOne(a[1..]);
      assert [a[0]] + a[1..] == a;
    }
  }

  /** Lines joined are split again where they were joined. */
  lemma {:induction false} JoinSplits(lines: seq<string>)
    requires |lines| >= 1 && forall k :: 0 <= k < |lines| ==> OneLine(lines[k])
    ensures Split(JoinLines(lines)) == lines
  {
    if |lines| == 1 {
      SplitOne(lines[0]);
    } else {
      JoinSplits(lines[1..]);
      SplitFirst(lines[0], JoinLines(lines[1..]));
      assert [lines[0]] + lines[1..] == lines;
    }
  }

  // ---------------------------------------------------------------- where lines begin

  /** The white space in front of token `i`, if it begins a line. */
  function ShiftedIndent(tokens: seq<Token>, i: nat): Option<string>
    requires i < |tokens|
  {
    if i == 0 then Some("")
    else if tokens[i - 1].kind == Indent then Some(tokens[i - 1].s)
    else if tokens[i - 1].kind == Newline && tokens[i].kind != Indent then Some("")
    else None
  }

  predicate BeginsLine(tokens: seq<Token>, i: nat) {
    i < |tokens| && ShiftedIndent(tokens, i).Some?
  }

  /** Tokens that are left where they stand: white space, and anything of a code or pre element's tags. */
  predicate PassedOver(t: Token) {
    t.kind == Indent || t.kind == Whitespace || t.kind == Newline || t.tag == "code" || t.tag == "pre"
  }

  // ---------------------------------------------------------------- which element a token stands in

  function Top(stack: seq<nat>): Option<nat> {
    if stack == [] then None else Some(stack[|stack| - 1])
  }

  /** The start tokens around what follows token `i`; None if printing stops at it. */
  function Entered(tokens: seq<Token>, startOf: map<nat, nat>, endOf: map<nat, nat>, stack: seq<nat>, i: nat): Option<seq<nat>>
    requires i < |tokens|
  {
    if PassedOver(tokens[i]) then Some(stack)
    else if tokens[i].tag == "else" then (if i in startOf then Some(stack) else None)
    else if i in endOf then
      (if BeginsLine(tokens, i) && stack != [] && !BeginsLine(tokens, stack[|stack| - 1]) then None else Some(stack + [i]))
    else if i in startOf then
      (if Top(stack) == Some(startOf[i]) then Some(stack[..|stack| - 1]) else None)
    else Some(stack)
  }

  /** The start tokens around token `i`; None if printing stops before it. */
  function Around(tokens: seq<Token>, startOf: map<nat, nat>, endOf: map<nat, nat>, i: nat): Option<seq<nat>>
    requires i <= |tokens|
  {
    if i == 0 then Some([])
    else
      match Around(tokens, startOf, endOf, i - 1)
      case None => None
      case Some(stack) => Entered(tokens, startOf, endOf, stack, i - 1)
  }

  lemma {:induction false} StopsForGood(tokens: seq<Token>, startOf: map<nat, nat>, endOf: map<nat, nat>, i: nat, n: nat)
    requires i <= n <= |tokens| && Around(tokens, startOf, endOf, i).None?
    ensures Around(tokens, startOf, endOf, n).None?
  {
    if i < n {
      StopsForGood(tokens, startOf, endOf, i, n - 1);
    }
  }

  /** The start token of the element each token stands directly in. */
  function Parents(tokens: seq<Token>, startOf: map<nat, nat>, endOf: map<nat, nat>): (inside: seq<Option<nat>>)
    ensures |inside| == |tokens|
  {
    seq(|tokens|, i requires 0 <= i < |tokens| => ParentAt(tokens, startOf, endOf, i))
  }

  function ParentAt(tokens: seq<Token>, startOf: map<nat, nat>, endOf: map<nat, nat>, i: nat): Option<nat>
    requires i < |tokens|
  {
    match Around(tokens, startOf, endOf, i)
    case None => None
    case Some(stack) => Top(stack)
  }

  lemma {:induction false} AroundIsBefore(tokens: seq<Token>, startOf: map<nat, nat>, endOf: map<nat, nat>, i: nat)
    requires i <= |tokens| && Around(tokens, startOf, endOf, i).Some?
    ensures forall d :: 0 <= d < |Around(tokens, startOf, endOf, i).value| ==> Around(tokens, startOf, endOf, i).value[d] < i
  {
    if i > 0 {
      AroundIsBefore(tokens, startOf, endOf, i - 1);
    }
  }

  ghost predicate ParentsFit(inside: seq<Option<nat>>) {
    forall k :: 0 <= k < |inside| && inside[k].Some? ==> inside[k].value < k
  }

  lemma ParentsAreBefore(tokens: seq<Token>, startOf: map<nat, nat>, endOf: map<nat, nat>)
    ensures ParentsFit(Parents(tokens, startOf, endOf))
  {
    forall k | 0 <= k < |tokens| && ParentAt(tokens, startOf, endOf, k).Some? ensures ParentAt(tokens, startOf, endOf, k).value < k {
      AroundIsBefore(tokens, startOf, endOf, k);
    }
  }

  // ---------------------------------------------------------------- the rules

  /** Template blocks and links may leave their children at their own indent; loops may not. */
  predicate AllowsSkippedIndents(t: Token) {
    t.tag != "each" && (t.kind == DjangoStart || t.kind == HandlebarsStart || t.tag == "a")
  }

  /** Token `k` begins a line directly inside the element started at `p`, and is no else of it. */
  predicate ChildLine(tokens: seq<Token>, inside: seq<Option<nat>>, p: nat, k: nat)
    requires |inside| == |tokens|
  {
    k < |tokens| && inside[k] == Some(p) && BeginsLine(tokens, k) && !PassedOver(tokens[k]) && tokens[k].tag != "else"
  }

  /** The first such token before `n`. */
  function FirstLine(tokens: seq<Token>, inside: seq<Option<nat>>, p: nat, n: nat): Option<nat>
    requires n <= |tokens| == |inside|
  {
    if n == 0 then None
    else
      var f := FirstLine(tokens, inside, p, n - 1);
      if f.Some? then f else if ChildLine(tokens, inside, p, n - 1) then Some(n - 1) else None
  }

  lemma {:induction false} FirstLineIs(tokens: seq<Token>, inside: seq<Option<nat>>, p: nat, n: nat, f: nat)
    requires n <= |tokens| == |inside|
    ensures FirstLine(tokens, inside, p, n) == Some(f) <==>
              f < n && ChildLine(tokens, inside, p, f) && forall k :: 0 <= k < f ==> !ChildLine(tokens, inside, p, k)
  {
    if n > 0 {
      FirstLineIs(tokens, inside, p, n - 1, f);
      if FirstLine(tokens, inside, p, n - 1).Some? {
        FirstLineIs(tokens, inside, p, n - 1, FirstLine(tokens, inside, p, n - 1).value);
      } else {
        NoLineYet(tokens, inside, p, n - 1);
      }
    }
  }

  lemma {:induction false} NoLineYet(tokens: seq<Token>, inside: seq<Option<nat>>, p: nat, n: nat)
    requires n <= |tokens| == |inside| && FirstLine(tokens, inside, p, n).None?
    ensures forall k :: 0 <= k < n ==> !ChildLine(tokens, inside, p, k)
  {
    if n > 0 {
      NoLineYet(tokens, inside, p, n - 1);
    }
  }

  /** The first line inside the element stands, in the text, exactly below its start, and that is allowed. */
  predicate Skips(tokens: seq<Token>, inside: seq<Option<nat>>, p: nat, n: nat)
    requires p < |tokens| == |inside| && n <= |tokens|
  {
    && AllowsSkippedIndents(tokens[p]) && FirstLine(tokens, inside, p, n).Some?
    && FirstLine(tokens, inside, p, n).value < |tokens|
    && ShiftedIndent(tokens, FirstLine(tokens, inside, p, n).value) == ShiftedIndent(tokens, p)
  }

  /** The indent of the lines directly inside the element: four spaces more than its own, or its own. */
  function ChildOf(tokens: seq<Token>, inside: seq<Option<nat>>, indent: seq<Option<string>>, p: nat, n: nat): Option<string>
    requires p < |tokens| == |inside| == |indent| && n <= |tokens|
  {
    if !BeginsLine(tokens, p) || indent[p].None? then None
    else if Skips(tokens, inside, p, n) then indent[p]
    else Some(indent[p].value + "    ")
  }

  /**
  The indent of token `i`.  Only tokens that begin a line have one.  An end or an else has its start's.  Outside
  all elements it is empty.  Inside an element it is that of the element's lines; where the element's start does
  not begin a line itself, a token keeps the indent it had.
  */
  ghost predicate RuledAt(tokens: seq<Token>, startOf: map<nat, nat>, endOf: map<nat, nat>, inside: seq<Option<nat>>,
                          indent: seq<Option<string>>, i: nat, n: nat)
    requires i < |tokens| == |inside| == |indent| && n <= |tokens|
  {
    if !BeginsLine(tokens, i) then indent[i].None?
    else if PassedOver(tokens[i]) then indent[i] == ShiftedIndent(tokens, i)
    else if tokens[i].tag == "else" || (i !in endOf && i in startOf) then
      i in startOf && startOf[i] < i && indent[i] == indent[startOf[i]]
    else
      match inside[i]
      case None => indent[i] == Some("")
      case Some(p) =>
        p < i && if BeginsLine(tokens, p) then indent[i].Some? && indent[i] == ChildOf(tokens, inside, indent, p, n)
                 else i !in endOf && indent[i] == ShiftedIndent(tokens, i)
  }

  ghost predicate WellIndented(tokens: seq<Token>, startOf: map<nat, nat>, endOf: map<nat, nat>, indent: seq<Option<string>>) {
    && |indent| == |tokens|
    && forall i :: 0 <= i < |tokens| ==> RuledAt(tokens, startOf, endOf, Parents(tokens, startOf, endOf), indent, i, |tokens|)
  }

  lemma {:induction false} FirstStays(tokens: seq<Token>, inside: seq<Option<nat>>, p: nat, m: nat, n: nat)
    requires m <= n <= |tokens| == |inside| && FirstLine(tokens, inside, p, m).Some?
    ensures FirstLine(tokens, inside, p, n) == FirstLine(tokens, inside, p, m)
  {
    if m < n {
      FirstStays(tokens, inside, p, m, n - 1);
    }
  }

  /** The first line of an element is settled by the time a token inside it is reached. */
  lemma RuledForGood(tokens: seq<Token>, startOf: map<nat, nat>, endOf: map<nat, nat>, inside: seq<Option<nat>>,
                     indent: seq<Option<string>>, i: nat, n: nat)
    requires i < n <= |tokens| == |inside| == |indent| && RuledNow(tokens, startOf, endOf, inside, indent, i)
    ensures RuledAt(tokens, startOf, endOf, inside, indent, i, n)
  {
    if inside[i].Some? && ChildLine(tokens, inside, inside[i].value, i) {
      FirstStays(tokens, inside, inside[i].value, i + 1, n);
    }
  }

  /** The rule for token `i` looks at no later token's indent. */
  lemma RuledStays(tokens: seq<Token>, startOf: map<nat, nat>, endOf: map<nat, nat>, inside: seq<Option<nat>>,
                   a: seq<Option<string>>, b: seq<Option<string>>, i: nat, n: nat)
    requires i < n <= |tokens| == |inside| == |a| == |b| && RuledAt(tokens, startOf, endOf, inside, a, i, n)
    requires forall k :: 0 <= k <= i ==> a[k] == b[k]
    ensures RuledAt(tokens, startOf, endOf, inside, b, i, n)
  {
  }

  /** Token `k` follows the rules, as far as the tokens up to it tell. */
  ghost predicate RuledNow(tokens: seq<Token>, startOf: map<nat, nat>, endOf: map<nat, nat>, inside: seq<Option<nat>>,
                           indent: seq<Option<string>>, k: nat)
    requires k < |tokens| == |inside| == |indent|
  {
    RuledAt(tokens, startOf, endOf, inside, indent, k, k + 1)
  }

  /** The tokens before `n` follow the rules. */
  ghost predicate RuledBelow(tokens: seq<Token>, startOf: map<nat, nat>, endOf: map<nat, nat>, inside: seq<Option<nat>>,
                             indent: seq<Option<string>>, n: nat) {
    && n <= |tokens| == |inside| == |indent|
    && forall k :: 0 <= k < n ==> RuledNow(tokens, startOf, endOf, inside, indent, k)
  }

  lemma RuledOneMore(tokens: seq<Token>, startOf: map<nat, nat>, endOf: map<nat, nat>, inside: seq<Option<nat>>,
                     a: seq<Option<string>>, b: seq<Option<string>>, i: nat)
    requires i < |tokens| == |b| && RuledBelow(tokens, startOf, endOf, inside, a, i) && forall k :: 0 <= k < i ==> a[k] == b[k]
    requires RuledNow(tokens, startOf, endOf, inside, b, i)
    ensures RuledBelow(tokens, startOf, endOf, inside, b, i + 1)
  {
    forall k | 0 <= k < i ensures RuledNow(tokens, startOf, endOf, inside, b, k) {
      assert RuledNow(tokens, startOf, endOf, inside, a, k);
      RuledStays(tokens, startOf, endOf, inside, a, b, k, k + 1);
    }
  }

  /** An end or an else lined up with its start follows the rules. */
  lemma AlignedRuled(tokens: seq<Token>, startOf: map<nat, nat>, endOf: map<nat, nat>, inside: seq<Option<nat>>,
                     indent: seq<Option<string>>, i: nat)
    requires i < |tokens| == |inside| == |indent| && !PassedOver(tokens[i]) && (tokens[i].tag == "else" || i !in endOf)
    requires i in startOf && startOf[i] < i
    requires indent[i] == if ShiftedIndent(tokens, i).Some? then indent[startOf[i]] else None
    ensures RuledNow(tokens, startOf, endOf, inside, indent, i)
  {
  }

  /** Any other token, under what its parent says of its lines. */
  lemma ChildRuled(tokens: seq<Token>, startOf: map<nat, nat>, endOf: map<nat, nat>, inside: seq<Option<nat>>,
                   indent: seq<Option<string>>, i: nat, child: Option<string>)
    requires i < |tokens| == |inside| == |indent| && !PassedOver(tokens[i]) && tokens[i].tag != "else" && (i in endOf || i !in startOf)
    requires inside[i].Some? ==> inside[i].value < i && child == ChildOf(tokens, inside, indent, inside[i].value, i + 1)
    requires inside[i].Some? ==> (child.Some? <==> BeginsLine(tokens, inside[i].value))
    requires indent[i] == if ShiftedIndent(tokens, i).None? then None else if inside[i].None? then Some("")
                          else if child.Some? then child else ShiftedIndent(tokens, i)
    requires i in endOf && BeginsLine(tokens, i) && inside[i].Some? ==> child.Some?
    ensures RuledNow(tokens, startOf, endOf, inside, indent, i)
  {
  }

  // ---------------------------------------------------------------- what is printed of a token

  /** Comments and text continue at their own indent, everything else four spaces further. */
  predicate ContinuesFlush(t: Token) {
    t.kind == DjangoComment || t.kind == HandlebarsComment || t.kind == HtmlComment || t.kind == Text
  }

  function LaterIndent(t: Token, indent: string): string {
    if ContinuesFlush(t) then indent else indent + "    "
  }

  /** The body has the lines of `s`: the first as it was, the later ones without the white space around them, under `later`. */
  ghost predicate LinesLaid(s: string, body: string, later: string) {
    && |Split(body)| == |Split(s)| && Split(body)[0] == Split(s)[0]
    && forall k :: 1 <= k < |Split(s)| ==>
         Split(body)[k] == if Strip(Split(s)[k]) == "" then "" else later + Strip(Split(s)[k])
  }

  ghost predicate BodyLaid(t: Token, indent: Option<string>, body: string) {
    if t.kind == Code || t.lineSpan == 1 || indent.None? then body == t.s
    else LinesLaid(t.s, body, LaterIndent(t, indent.value))
  }

  /** What is printed of token `i`: its indent and its text; an indent token is printed with the token behind it. */
  ghost predicate PieceLaid(tokens: seq<Token>, i: nat, indent: Option<string>, piece: string)
    requires i < |tokens|
  {
    if tokens[i].kind == Indent && i + 1 < |tokens| then piece == ""
    else exists body :: piece == (if indent.Some? then indent.value + body else body) && BodyLaid(tokens[i], indent, body)
  }

  function Concat(pieces: seq<string>): string {
    if pieces == [] then "" else Concat(pieces[..|pieces| - 1]) + pieces[|pieces| - 1]
  }

  predicate EndsLine(s: string) {
    s == "" || s[|s| - 1] == '\n'
  }

  /** The printed text, token by token; what is printed of a token that begins a line begins a line. */
  ghost predicate LaidOut(tokens: seq<Token>, indent: seq<Option<string>>, pieces: seq<string>, out: string) {
    && |pieces| == |tokens| == |indent| && out == Concat(pieces)
    && (forall i :: 0 <= i < |tokens| ==> PieceLaid(tokens, i, indent[i], pieces[i]))
    && (forall i :: 0 <= i < |tokens| && BeginsLine(tokens, i) ==> EndsLine(Concat(pieces[..i])))
  }

  /** A layout of the tokens under the rules. */
  ghost predicate IsPrintOf(tokens: seq<Token>, startOf: map<nat, nat>, endOf: map<nat, nat>, out: string) {
    exists indent, pieces :: WellIndented(tokens, startOf, endOf, indent) && LaidOut(tokens, indent, pieces, out)
  }

  // ---------------------------------------------------------------- the rules leave no choice

  lemma {:induction false} IndentsDetermined(tokens: seq<Token>, startOf: map<nat, nat>, endOf: map<nat, nat>,
                                             a: seq<Option<string>>, b: seq<Option<string>>, n: nat)
    requires WellIndented(tokens, startOf, endOf, a) && WellIndented(tokens, startOf, endOf, b) && n <= |tokens|
    ensures forall k :: 0 <= k < n ==> a[k] == b[k]
  {
    if n > 0 {
      IndentsDetermined(tokens, startOf, endOf, a, b, n - 1);
      var inside := Parents(tokens, startOf, endOf);
      assert RuledAt(tokens, startOf, endOf, inside, a, n - 1, |tokens|) && RuledAt(tokens, startOf, endOf, inside, b, n - 1, |tokens|);
    }
  }

  lemma BodyDetermined(t: Token, indent: Option<string>, a: string, b: string)
    requires BodyLaid(t, indent, a) && BodyLaid(t, indent, b)
    ensures a == b
  {
    if t.kind != Code && t.lineSpan != 1 && indent.Some? {
      SplitJoins(a);
      SplitJoins(b);
      assert Split(a) == Split(b);
    }
  }

  lemma PieceDetermined(tokens: seq<Token>, i: nat, indent: Option<string>, p: string, q: string)
    requires i < |tokens| && PieceLaid(tokens, i, indent, p) && PieceLaid(tokens, i, indent, q)
    ensures p == q
  {
    if !(tokens[i].kind == Indent && i + 1 < |tokens|) {
      var a :| p == (if indent.Some? then indent.value + a else a) && BodyLaid(tokens[i], indent, a);
      var b :| q == (if indent.Some? then indent.value + b else b) && BodyLaid(tokens[i], indent, b);
      BodyDetermined(tokens[i], indent, a, b);
    }
  }

  /** Tokens and links have one print: the rules determine every character of it. */
  lemma PrintDetermined(tokens: seq<Token>, startOf: map<nat, nat>, endOf: map<nat, nat>, x: string, y: string)
    requires IsPrintOf(tokens, startOf, endOf, x) && IsPrintOf(tokens, startOf, endOf, y)
    ensures x == y
  {
    var a, p :| WellIndented(tokens, startOf, endOf, a) && LaidOut(tokens, a, p, x);
    var b, q :| WellIndented(tokens, startOf, endOf, b) && LaidOut(tokens, b, q, y);
    IndentsDetermined(tokens, startOf, endOf, a, b, |tokens|);
    forall i | 0 <= i < |tokens| ensures p[i] == q[i] {
      PieceDetermined(tokens, i, a[i], p[i], q[i]);
    }
    assert p == q;
  }
}
