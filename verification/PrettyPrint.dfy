/** The template pretty-printer: four passes over the tokens, each rewriting fields in place. */
module PrettyPrint {
  import opened Options
  import opened Tokens
  import opened Scanners
  import opened LineEnds
  import opened Tokenizer
  import opened Layout

  // ---------------------------------------------------------------- lines

  /** A later line of a token, put under the token's indentation. */
  function Fixed(line: string, indent: string): string {
    var t := Strip(line);
    if t == "" then "" else indent + t
  }

  function FixedLines(lines: seq<string>, indent: string): string {
    if |lines| == 0 then "" else if |lines| == 1 then Fixed(lines[0], indent)
    else Fixed(lines[0], indent) + "\n" + FixedLines(lines[1..], indent)
  }

  function Refitted(s: string, indent: string): string {
    Split(s)[0] + "\n" + FixedLines(Split(s)[1..], indent)
  }

  /** `p` reads as `s` does from `q` on. */
  predicate Same(s: string, p: string, q: Place) {
    Settled1(p, q) == Settled1(s, q) && Place1(p, q) == Place1(s, q)
  }

  lemma FixedSettles(line: string, indent: string)
    requires OneLine(line) && IsIndent(indent)
    ensures Settled1(Fixed(line, indent), Start) == Settled1(line, Start)
    ensures line != "" && !IsSpace(line[|line| - 1]) ==> Same(line, Fixed(line, indent), Start)
  {
    StripSettles(line);
    IndentInFront(indent, Strip(line));
  }

  predicate EndsSolid(s: string) {
    s != "" && !IsSpace(s[|s| - 1])
  }

  lemma {:induction false} LinesSettle(lines: seq<string>, indent: string)
    requires |lines| >= 1 && IsIndent(indent) && EndsSolid(JoinLines(lines))
    requires forall k :: 0 <= k < |lines| ==> OneLine(lines[k])
    ensures Same(JoinLines(lines), FixedLines(lines, indent), Start)
  {
    var head, fixed := lines[0], Fixed(lines[0], indent);
    FixedSettles(head, indent);
    if |lines| > 1 {
      var rest := JoinLines(lines[1..]);
      assert JoinLines(lines) == (head + "\n") + rest;
      TailEndsSolid(head, rest);
      LinesSettle(lines[1..], indent);
      NewlineAfter(head, Start);
      NewlineAfter(fixed, Start);
      SettledJoin(head + "\n", rest, Start);
      SettledJoin(fixed + "\n", FixedLines(lines[1..], indent), Start);
    }
  }

  lemma TailEndsSolid(head: string, rest: string)
    requires EndsSolid(head + "\n" + rest)
    ensures EndsSolid(rest)
  {
    var s := head + "\n" + rest;
    assert s[|s| - 1] == if rest == "" then '\n' else rest[|rest| - 1];
  }

  lemma RefittedReads(s: string, indent: string, q: Place)
    requires '\n' in s && EndsSolid(s) && IsIndent(indent)
    ensures Same(s, Refitted(s, indent), q)
  {
    SplitJoins(s);
    var lines := Split(s);
    var head, rest := lines[0] + "\n", JoinLines(lines[1..]);
    assert s == head + rest;
    TailEndsSolid(lines[0], rest);
    LinesSettle(lines[1..], indent);
    NewlineAfter(lines[0], q);
    SettledJoin(head, rest, q);
    SettledJoin(head, FixedLines(lines[1..], indent), q);
  }

  // ---------------------------------------------------------------- what the tokens must be

  /** Only an indent or a newline comes before token `i` on its line. */
  predicate AtStart(tokens: seq<Token>, i: nat)
    requires i < |tokens|
  {
    i == 0 || tokens[i - 1].kind == Newline || tokens[i - 1].kind == Indent
  }

  predicate CutWell(tokens: seq<Token>, i: nat)
    requires i < |tokens|
  {
    var t := tokens[i];
    && (t.kind == Newline ==> t.s == "\n")
    && (t.kind == Indent ==> IsIndent(t.s) && t.lineSpan == 1 && (i == 0 || tokens[i - 1].kind == Newline))
    && (t.lineSpan != 1 && t.kind != Code ==> '\n' in t.s && EndsSolid(t.s))
  }

  predicate WellCut(tokens: seq<Token>) {
    forall i :: 0 <= i < |tokens| ==> CutWell(tokens, i)
  }

  predicate LinksFit(tokens: seq<Token>, startOf: map<nat, nat>) {
    forall j :: j in startOf ==> startOf[j] < j < |tokens|
  }

  /** What may be printed for token `i`: it reads like the token, from the start of a line if the token stands there. */
  ghost predicate PieceFits(tokens: seq<Token>, i: nat, p: string)
    requires i < |tokens|
  {
    if AtStart(tokens, i) then Same(tokens[i].s, p, Start) else forall q :: Same(tokens[i].s, p, q)
  }

  lemma JoinedLast(tokens: seq<Token>, n: nat)
    requires 0 < n <= |tokens|
    ensures Joined(tokens[..n]) == Joined(tokens[..n - 1]) + tokens[n - 1].s
  {
    assert tokens[..n][..n - 1] == tokens[..n - 1];
  }

  lemma {:induction false} StartsThere(tokens: seq<Token>, i: nat)
    requires WellCut(tokens) && i < |tokens| && AtStart(tokens, i)
    ensures Place1(Joined(tokens[..i]), Start) == Start
  {
    if i > 0 {
      assert CutWell(tokens, i - 1);
      JoinedLast(tokens, i);
      SettledJoin(Joined(tokens[..i - 1]), tokens[i - 1].s, Start);
      if tokens[i - 1].kind == Newline {
        NewlineAfter("", Place1(Joined(tokens[..i - 1]), Start));
      } else {
        StartsThere(tokens, i - 1);
        IndentVanishes(tokens[i - 1].s);
      }
    }
  }

  lemma {:induction false} PiecesSettle(tokens: seq<Token>, pieces: seq<string>, n: nat)
    requires WellCut(tokens) && |pieces| == |tokens| && n <= |tokens|
    requires forall i :: 0 <= i < |tokens| ==> PieceFits(tokens, i, pieces[i])
    ensures Same(Joined(tokens[..n]), Concat(pieces[..n]), Start)
  {
    if n > 0 {
      PiecesSettle(tokens, pieces, n - 1);
      JoinedLast(tokens, n);
      assert pieces[..n][..n - 1] == pieces[..n - 1];
      var q := Place1(Joined(tokens[..n - 1]), Start);
      if AtStart(tokens, n - 1) {
        StartsThere(tokens, n - 1);
      }
      assert PieceFits(tokens, n - 1, pieces[n - 1]);
      assert Same(tokens[n - 1].s, pieces[n - 1], q);
      SettledJoin(Joined(tokens[..n - 1]), tokens[n - 1].s, Start);
      SettledJoin(Concat(pieces[..n - 1]), pieces[n - 1], Start);
    }
  }

  // ---------------------------------------------------------------- the passes

  function ShiftedText(tokens: seq<Token>, i: nat): string
    requires i < |tokens|
  {
    if tokens[i].kind == Indent && i + 1 < |tokens| then "" else tokens[i].s
  }

  /** The first pass has dealt with the tokens before `i`, and with the indent of token `i`. */
  ghost predicate ShiftedUpTo(tokens: seq<Token>, i: nat, texts: seq<string>, indents: seq<Option<string>>) {
    && |texts| == |indents| == |tokens|
    && (forall k :: 0 <= k < |tokens| ==> texts[k] == if k < i then ShiftedText(tokens, k) else tokens[k].s)
    && (forall k :: 0 <= k < |tokens| ==> indents[k] == if k <= i then ShiftedIndent(tokens, k) else None)
  }

  lemma ShiftedOneMore(tokens: seq<Token>, i: nat, texts: seq<string>, indents: seq<Option<string>>, texts': seq<string>, indents': seq<Option<string>>)
    requires i + 1 < |tokens| && ShiftedUpTo(tokens, i, texts, indents)
    requires texts' == if tokens[i].kind == Indent then texts[i := ""] else texts
    requires indents' == if tokens[i].kind == Indent then indents[i + 1 := Some(tokens[i].s)]
                         else if tokens[i].kind == Newline && tokens[i + 1].kind != Indent then indents[i + 1 := Some("")] else indents
    ensures ShiftedUpTo(tokens, i + 1, texts', indents')
  {
    forall k | 0 <= k < |tokens| ensures texts'[k] == if k < i + 1 then ShiftedText(tokens, k) else tokens[k].s {
    }
    forall k | 0 <= k < |tokens| ensures indents'[k] == if k <= i + 1 then ShiftedIndent(tokens, k) else None {
    }
  }

  datatype PrintError = AssertionError | NoTokens

  predicate Blank(o: Option<string>) {
    o.Some? ==> IsIndent(o.value)
  }

  lemma Deeper(indent: string)
    requires IsIndent(indent)
    ensures IsIndent(indent + "    ")
  {
  }

  ghost predicate OnlyAt(a: seq<Option<string>>, b: seq<Option<string>>, i: nat) {
    |a| == |b| && forall k :: 0 <= k < |a| && k != i ==> a[k] == b[k]
  }

  // ---------------------------------------------------------------- when the second pass stops

  /** What the second pass keeps of the start tokens around token `n`, and of the tokens from there on. */
  ghost predicate Standing(tokens: seq<Token>, stack: seq<nat>, n: nat, indent: seq<Option<string>>, orig: seq<Option<string>>,
                           child: seq<Option<string>>, parent: seq<Option<nat>>) {
    && |indent| == |orig| == |child| == |parent| == |tokens|
    && (forall d :: 0 <= d < |stack| ==> Stands(tokens, stack, d, indent, orig, child, parent) && stack[d] < n)
    && (forall d, e :: 0 <= d < e < |stack| ==> stack[d] < stack[e])
    && (forall k :: n <= k < |tokens| ==> orig[k].None? && child[k].None?)
    && (forall k :: n <= k < |tokens| ==> indent[k] == ShiftedIndent(tokens, k))
  }

  ghost predicate Stands(tokens: seq<Token>, stack: seq<nat>, d: nat, indent: seq<Option<string>>, orig: seq<Option<string>>,
                         child: seq<Option<string>>, parent: seq<Option<nat>>)
    requires d < |stack| && |indent| == |orig| == |child| == |parent| == |tokens|
  {
    var k := stack[d];
    && k < |tokens| && (child[k].Some? <==> BeginsLine(tokens, k)) && (orig[k].Some? ==> child[k].Some? && indent[k].Some?)
    && parent[k] == Top(stack[..d])
  }

  lemma StandingIsBelow(tokens: seq<Token>, stack: seq<nat>, n: nat, indent: seq<Option<string>>, orig: seq<Option<string>>,
                        child: seq<Option<string>>, parent: seq<Option<nat>>)
    requires Standing(tokens, stack, n, indent, orig, child, parent)
    ensures Below(stack, n)
  {
  }

  lemma StandingOn(tokens: seq<Token>, stack: seq<nat>, i: nat, indent: seq<Option<string>>, indent': seq<Option<string>>,
                   orig: seq<Option<string>>, child: seq<Option<string>>, parent: seq<Option<nat>>)
    requires i < |tokens| && Standing(tokens, stack, i, indent, orig, child, parent) && OnlyAt(indent, indent', i)
    ensures Standing(tokens, stack, i + 1, indent', orig, child, parent)
  {
    forall d | 0 <= d < |stack| ensures Stands(tokens, stack, d, indent', orig, child, parent) {
      assert Stands(tokens, stack, d, indent, orig, child, parent) && stack[d] < i;
    }
  }

  lemma StandingMarked(tokens: seq<Token>, stack: seq<nat>, i: nat, indent: seq<Option<string>>, orig: seq<Option<string>>,
                       child: seq<Option<string>>, parent: seq<Option<nat>>)
    requires Standing(tokens, stack, i, indent, orig, child, parent) && stack != []
    requires var open := stack[|stack| - 1]; open < |tokens| && orig[open].Some?
    ensures var open := stack[|stack| - 1]; Standing(tokens, stack, i, indent, orig, child[open := indent[open]], parent)
  {
    var open := stack[|stack| - 1];
    var child' := child[open := indent[open]];
    assert Stands(tokens, stack, |stack| - 1, indent, orig, child, parent);
    forall d | 0 <= d < |stack| ensures Stands(tokens, stack, d, indent, orig, child', parent) {
      assert Stands(tokens, stack, d, indent, orig, child, parent);
    }
  }

  lemma StandingPushed(tokens: seq<Token>, stack: seq<nat>, i: nat, indent: seq<Option<string>>, orig: seq<Option<string>>,
                       child: seq<Option<string>>, parent: seq<Option<nat>>, indent': seq<Option<string>>,
                       orig': seq<Option<string>>, child': seq<Option<string>>)
    requires i < |tokens| && Standing(tokens, stack, i, indent, orig, child, parent)
    requires OnlyAt(indent, indent', i) && OnlyAt(orig, orig', i) && OnlyAt(child, child', i)
    requires (child'[i].Some? <==> BeginsLine(tokens, i)) && (orig'[i].Some? ==> child'[i].Some? && indent'[i].Some?)
    ensures Standing(tokens, stack + [i], i + 1, indent', orig', child', parent[i := Top(stack)])
  {
    var next, parent' := stack + [i], parent[i := Top(stack)];
    forall d | 0 <= d < |next| ensures Stands(tokens, next, d, indent', orig', child', parent') && next[d] < i + 1 {
      if d < |stack| {
        assert Stands(tokens, stack, d, indent, orig, child, parent) && stack[d] < i;
        assert next[..d] == stack[..d];
      } else {
        assert next[..d] == stack;
      }
    }
  }

  lemma StandingPopped(tokens: seq<Token>, stack: seq<nat>, i: nat, indent: seq<Option<string>>, orig: seq<Option<string>>,
                       child: seq<Option<string>>, parent: seq<Option<nat>>)
    requires Standing(tokens, stack, i, indent, orig, child, parent) && stack != []
    ensures Standing(tokens, stack[..|stack| - 1], i, indent, orig, child, parent)
    ensures stack[|stack| - 1] < |tokens| && parent[stack[|stack| - 1]] == Top(stack[..|stack| - 1])
  {
    var below := stack[..|stack| - 1];
    assert Stands(tokens, stack, |stack| - 1, indent, orig, child, parent);
    forall d | 0 <= d < |below| ensures Stands(tokens, below, d, indent, orig, child, parent) && below[d] < i {
      assert Stands(tokens, stack, d, indent, orig, child, parent);
      assert below[..d] == stack[..d];
    }
  }

  // ---------------------------------------------------------------- what the second pass remembers

  /** Of a start token: whether a line inside it was met, the indent of such lines, and the indent it had itself. */
  ghost predicate MarkedAt(tokens: seq<Token>, inside: seq<Option<nat>>, p: nat, n: nat, indent: seq<Option<string>>,
                           orig: seq<Option<string>>, child: seq<Option<string>>, final: seq<bool>)
    requires n <= |tokens| == |inside| == |indent| == |orig| == |child| == |final|
  {
    && p < |tokens| && final[p] == FirstLine(tokens, inside, p, n).Some?
    && child[p] == ChildOf(tokens, inside, indent, p, n) && orig[p] == ShiftedIndent(tokens, p)
  }

  /** Of all start tokens around token `n`. */
  ghost predicate Marked(tokens: seq<Token>, inside: seq<Option<nat>>, stack: seq<nat>, n: nat, indent: seq<Option<string>>,
                         orig: seq<Option<string>>, child: seq<Option<string>>, final: seq<bool>) {
    && n <= |tokens| == |inside| == |indent| == |orig| == |child| == |final|
    && forall d :: 0 <= d < |stack| ==> MarkedAt(tokens, inside, stack[d], n, indent, orig, child, final)
  }

  ghost predicate Unmarked(final: seq<bool>, n: nat) {
    forall k :: n <= k < |final| ==> !final[k]
  }

  ghost predicate Below(stack: seq<nat>, n: nat) {
    && (forall d :: 0 <= d < |stack| ==> stack[d] < n)
    && (forall d, e :: 0 <= d < e < |stack| ==> stack[d] < stack[e])
  }

  lemma MarkedStays(tokens: seq<Token>, inside: seq<Option<nat>>, stack: seq<nat>, n: nat, i: nat, indent: seq<Option<string>>,
                    indent': seq<Option<string>>, orig: seq<Option<string>>, child: seq<Option<string>>, final: seq<bool>)
    requires Marked(tokens, inside, stack, n, indent, orig, child, final) && Below(stack, i) && OnlyAt(indent, indent', i)
    ensures Marked(tokens, inside, stack, n, indent', orig, child, final)
  {
    forall d | 0 <= d < |stack| ensures MarkedAt(tokens, inside, stack[d], n, indent', orig, child, final) {
      assert MarkedAt(tokens, inside, stack[d], n, indent, orig, child, final);
    }
  }

  /** A token that is no line of any element around it changes no mark. */
  lemma MarkedOn(tokens: seq<Token>, inside: seq<Option<nat>>, stack: seq<nat>, i: nat, indent: seq<Option<string>>,
                 orig: seq<Option<string>>, child: seq<Option<string>>, final: seq<bool>)
    requires i < |tokens| && Marked(tokens, inside, stack, i, indent, orig, child, final)
    requires inside[i].None? || !ChildLine(tokens, inside, inside[i].value, i)
    ensures Marked(tokens, inside, stack, i + 1, indent, orig, child, final)
  {
    forall d | 0 <= d < |stack| ensures MarkedAt(tokens, inside, stack[d], i + 1, indent, orig, child, final) {
      assert MarkedAt(tokens, inside, stack[d], i, indent, orig, child, final);
      assert !ChildLine(tokens, inside, stack[d], i);
    }
  }

  /** The first line of the innermost element settles its lines; a later one does not. */
  lemma MarkedChild(tokens: seq<Token>, inside: seq<Option<nat>>, stack: seq<nat>, i: nat, open: nat, indent: seq<Option<string>>,
                    orig: seq<Option<string>>, child: seq<Option<string>>, child': seq<Option<string>>, final: seq<bool>)
    requires i < |tokens| && Marked(tokens, inside, stack, i, indent, orig, child, final) && Below(stack, i) && Top(stack) == Some(open)
    requires ChildLine(tokens, inside, open, i) && (orig[open].Some? ==> indent[open].Some?)
    requires child' == if !final[open] && ShiftedIndent(tokens, i) == orig[open] && AllowsSkippedIndents(tokens[open])
                       then child[open := indent[open]] else child
    ensures Marked(tokens, inside, stack, i + 1, indent, orig, child', final[open := true])
  {
    var final' := final[open := true];
    assert MarkedAt(tokens, inside, stack[|stack| - 1], i, indent, orig, child, final);
    forall d | 0 <= d < |stack| ensures MarkedAt(tokens, inside, stack[d], i + 1, indent, orig, child', final') {
      assert MarkedAt(tokens, inside, stack[d], i, indent, orig, child, final);
      if d == |stack| - 1 {
        InnermostMarked(tokens, inside, i, open, indent, orig, child, child', final);
      } else {
        assert stack[d] < open && !ChildLine(tokens, inside, stack[d], i);
      }
    }
  }

  lemma InnermostMarked(tokens: seq<Token>, inside: seq<Option<nat>>, i: nat, open: nat, indent: seq<Option<string>>,
                        orig: seq<Option<string>>, child: seq<Option<string>>, child': seq<Option<string>>, final: seq<bool>)
    requires i < |tokens| == |inside| == |indent| == |orig| == |child| == |final|
    requires MarkedAt(tokens, inside, open, i, indent, orig, child, final) && ChildLine(tokens, inside, open, i)
    requires orig[open].Some? ==> indent[open].Some?
    requires child' == if !final[open] && ShiftedIndent(tokens, i) == orig[open] && AllowsSkippedIndents(tokens[open])
                       then child[open := indent[open]] else child
    ensures MarkedAt(tokens, inside, open, i + 1, indent, orig, child', final[open := true])
  {
    var before := FirstLine(tokens, inside, open, i);
    assert FirstLine(tokens, inside, open, i + 1) == if before.Some? then before else Some(i);
  }

  /** A start token joins those around what follows, with nothing met inside it yet. */
  lemma MarkedPushed(tokens: seq<Token>, inside: seq<Option<nat>>, stack: seq<nat>, i: nat, indent: seq<Option<string>>,
                     orig: seq<Option<string>>, child: seq<Option<string>>, final: seq<bool>,
                     indent': seq<Option<string>>, orig': seq<Option<string>>, child': seq<Option<string>>)
    requires i < |tokens| && Marked(tokens, inside, stack, i + 1, indent, orig, child, final) && Below(stack, i) && ParentsFit(inside)
    requires OnlyAt(indent, indent', i) && OnlyAt(orig, orig', i) && OnlyAt(child, child', i) && !final[i]
    requires orig'[i] == ShiftedIndent(tokens, i)
    requires child'[i] == if BeginsLine(tokens, i) && indent'[i].Some? then Some(indent'[i].value + "    ") else None
    ensures Marked(tokens, inside, stack + [i], i + 1, indent', orig', child', final)
  {
    var next := stack + [i];
    forall d | 0 <= d < |next| ensures MarkedAt(tokens, inside, next[d], i + 1, indent', orig', child', final) {
      if d < |stack| {
        assert MarkedAt(tokens, inside, stack[d], i + 1, indent, orig, child, final);
      } else {
        NothingInside(tokens, inside, i, i + 1);
      }
    }
  }

  lemma {:induction false} NothingInside(tokens: seq<Token>, inside: seq<Option<nat>>, i: nat, n: nat)
    requires n <= i + 1 <= |tokens| == |inside| && ParentsFit(inside)
    ensures FirstLine(tokens, inside, i, n).None?
  {
    if n > 0 {
      NothingInside(tokens, inside, i, n - 1);
    }
  }

  /** What is remembered of the innermost start token. */
  lemma InnermostSays(tokens: seq<Token>, inside: seq<Option<nat>>, stack: seq<nat>, i: nat, indent: seq<Option<string>>,
                      orig: seq<Option<string>>, child: seq<Option<string>>, parent: seq<Option<nat>>, final: seq<bool>)
    requires i < |tokens| && stack != [] && Standing(tokens, stack, i, indent, orig, child, parent)
    requires Marked(tokens, inside, stack, i + 1, indent, orig, child, final)
    ensures var p := stack[|stack| - 1];
            p < i && child[p] == ChildOf(tokens, inside, indent, p, i + 1) && (child[p].Some? <==> BeginsLine(tokens, p))
  {
    assert Stands(tokens, stack, |stack| - 1, indent, orig, child, parent);
    assert MarkedAt(tokens, inside, stack[|stack| - 1], i + 1, indent, orig, child, final);
  }

  lemma MarkedPopped(tokens: seq<Token>, inside: seq<Option<nat>>, stack: seq<nat>, n: nat, indent: seq<Option<string>>,
                     orig: seq<Option<string>>, child: seq<Option<string>>, final: seq<bool>)
    requires Marked(tokens, inside, stack, n, indent, orig, child, final) && stack != []
    ensures Marked(tokens, inside, stack[..|stack| - 1], n, indent, orig, child, final)
  {
    var below := stack[..|stack| - 1];
    forall d | 0 <= d < |below| ensures MarkedAt(tokens, inside, below[d], n, indent, orig, child, final) {
      assert MarkedAt(tokens, inside, stack[d], n, indent, orig, child, final);
    }
  }

  // ---------------------------------------------------------------- one token of the second pass

  /** Token `i` is an else, lined up with its start. */
  lemma ElseFits(tokens: seq<Token>, startOf: map<nat, nat>, endOf: map<nat, nat>, inside: seq<Option<nat>>, stack: seq<nat>, i: nat,
                 before: seq<Option<string>>, after: seq<Option<string>>, orig: seq<Option<string>>, child: seq<Option<string>>,
                 parent: seq<Option<nat>>, final: seq<bool>)
    requires i < |tokens| && Standing(tokens, stack, i, before, orig, child, parent) && Marked(tokens, inside, stack, i, before, orig, child, final)
    requires i in startOf && startOf[i] < i && !PassedOver(tokens[i]) && tokens[i].tag == "else"
    requires OnlyAt(before, after, i) && after[i] == if before[i].Some? then after[startOf[i]] else None
    ensures Standing(tokens, stack, i + 1, after, orig, child, parent) && Marked(tokens, inside, stack, i + 1, after, orig, child, final)
    ensures RuledNow(tokens, startOf, endOf, inside, after, i)
  {
    StandingIsBelow(tokens, stack, i, before, orig, child, parent);
    StandingOn(tokens, stack, i, before, after, orig, child, parent);
    MarkedOn(tokens, inside, stack, i, before, orig, child, final);
    MarkedStays(tokens, inside, stack, i + 1, i, before, after, orig, child, final);
    AlignedRuled(tokens, startOf, endOf, inside, after, i);
  }

  /** Token `i` ends the innermost element, lined up with its start. */
  lemma EndFits(tokens: seq<Token>, startOf: map<nat, nat>, endOf: map<nat, nat>, inside: seq<Option<nat>>, stack: seq<nat>, i: nat,
                before: seq<Option<string>>, after: seq<Option<string>>, orig: seq<Option<string>>, child: seq<Option<string>>,
                parent: seq<Option<nat>>, final: seq<bool>)
    requires i < |tokens| && Standing(tokens, stack, i, before, orig, child, parent) && Marked(tokens, inside, stack, i + 1, before, orig, child, final)
    requires i in startOf && i !in endOf && !PassedOver(tokens[i]) && Top(stack) == Some(startOf[i])
    requires OnlyAt(before, after, i) && startOf[i] < i && after[i] == if before[i].Some? then after[startOf[i]] else None
    ensures parent[startOf[i]] == Top(stack[..|stack| - 1]) && Standing(tokens, stack[..|stack| - 1], i + 1, after, orig, child, parent)
    ensures Marked(tokens, inside, stack[..|stack| - 1], i + 1, after, orig, child, final)
    ensures RuledNow(tokens, startOf, endOf, inside, after, i)
  {
    var below := stack[..|stack| - 1];
    StandingPopped(tokens, stack, i, before, orig, child, parent);
    StandingIsBelow(tokens, below, i, before, orig, child, parent);
    StandingOn(tokens, below, i, before, after, orig, child, parent);
    MarkedPopped(tokens, inside, stack, i + 1, before, orig, child, final);
    MarkedStays(tokens, inside, below, i + 1, i, before, after, orig, child, final);
    AlignedRuled(tokens, startOf, endOf, inside, after, i);
  }

  /** Where a token that is neither end nor else goes. */
  ghost predicate PutUnder(tokens: seq<Token>, open: Option<nat>, child: seq<Option<string>>, i: nat, to: Option<string>)
    requires i < |tokens| == |child|
  {
    to == if ShiftedIndent(tokens, i).None? then None else if open.None? then Some("")
          else if open.value < |child| && child[open.value].Some? then child[open.value] else ShiftedIndent(tokens, i)
  }

  /** Token `i` is neither start, end nor else. */
  lemma PlainFits(tokens: seq<Token>, startOf: map<nat, nat>, endOf: map<nat, nat>, inside: seq<Option<nat>>, stack: seq<nat>, i: nat,
                  before: seq<Option<string>>, after: seq<Option<string>>, orig: seq<Option<string>>, child: seq<Option<string>>,
                  parent: seq<Option<nat>>, final: seq<bool>)
    requires i < |tokens| && Standing(tokens, stack, i, before, orig, child, parent) && Marked(tokens, inside, stack, i + 1, before, orig, child, final)
    requires i !in startOf && i !in endOf && !PassedOver(tokens[i]) && tokens[i].tag != "else" && inside[i] == Top(stack)
    requires OnlyAt(before, after, i) && PutUnder(tokens, Top(stack), child, i, after[i])
    ensures Standing(tokens, stack, i + 1, after, orig, child, parent) && Marked(tokens, inside, stack, i + 1, after, orig, child, final)
    ensures RuledNow(tokens, startOf, endOf, inside, after, i)
  {
    StandingIsBelow(tokens, stack, i, before, orig, child, parent);
    StandingOn(tokens, stack, i, before, after, orig, child, parent);
    MarkedStays(tokens, inside, stack, i + 1, i, before, after, orig, child, final);
    if stack != [] {
      InnermostSays(tokens, inside, stack, i, before, orig, child, parent, final);
      ChildRuled(tokens, startOf, endOf, inside, after, i, child[stack[|stack| - 1]]);
    } else {
      ChildRuled(tokens, startOf, endOf, inside, after, i, None);
    }
  }

  /** Token `i` starts an element; `before` and `after` are its indents, and so for what is remembered of it. */
  lemma StartFits(tokens: seq<Token>, startOf: map<nat, nat>, endOf: map<nat, nat>, inside: seq<Option<nat>>, stack: seq<nat>, i: nat,
                  before: seq<Option<string>>, after: seq<Option<string>>, orig: seq<Option<string>>, orig': seq<Option<string>>,
                  child: seq<Option<string>>, child': seq<Option<string>>, parent: seq<Option<nat>>, final: seq<bool>)
    requires i < |tokens| && Standing(tokens, stack, i, before, orig, child, parent) && Marked(tokens, inside, stack, i + 1, before, orig, child, final)
    requires i in endOf && !PassedOver(tokens[i]) && tokens[i].tag != "else" && inside[i] == Top(stack) && ParentsFit(inside) && !final[i]
    requires BeginsLine(tokens, i) && stack != [] ==> BeginsLine(tokens, stack[|stack| - 1])
    requires OnlyAt(before, after, i) && PutUnder(tokens, Top(stack), child, i, after[i])
    requires OnlyAt(orig, orig', i) && orig'[i] == ShiftedIndent(tokens, i)
    requires OnlyAt(child, child', i) && child'[i] == if after[i].Some? then Some(after[i].value + "    ") else None
    ensures Standing(tokens, stack + [i], i + 1, after, orig', child', parent[i := Top(stack)])
    ensures Marked(tokens, inside, stack + [i], i + 1, after, orig', child', final)
    ensures RuledNow(tokens, startOf, endOf, inside, after, i)
  {
    StandingIsBelow(tokens, stack, i, before, orig, child, parent);
    MarkedStays(tokens, inside, stack, i + 1, i, before, after, orig, child, final);
    if stack != [] {
      InnermostSays(tokens, inside, stack, i, before, orig, child, parent, final);
      ChildRuled(tokens, startOf, endOf, inside, after, i, child[stack[|stack| - 1]]);
    } else {
      ChildRuled(tokens, startOf, endOf, inside, after, i, None);
    }
    StandingPushed(tokens, stack, i, before, orig, child, parent, after, orig', child');
    MarkedPushed(tokens, inside, stack, i, before, orig, child, final, after, orig', child');
  }

  // ---------------------------------------------------------------- the printed text

  /** The lines put under their indent are those the third pass makes. */
  lemma {:induction false} FixedIsJoined(lines: seq<string>, indent: string) returns (fixed: seq<string>)
    requires |lines| >= 1
    ensures |fixed| == |lines| && (forall k :: 0 <= k < |lines| ==> fixed[k] == Fixed(lines[k], indent))
    ensures FixedLines(lines, indent) == JoinLines(fixed)
  {
    if |lines| == 1 {
      fixed := [Fixed(lines[0], indent)];
    } else {
      var rest := FixedIsJoined(lines[1..], indent);
      fixed := [Fixed(lines[0], indent)] + rest;
      assert fixed[1..] == rest;
      assert forall k :: 1 <= k < |lines| ==> fixed[k] == rest[k - 1] && lines[1..][k - 1] == lines[k];
    }
  }

  lemma FixedIsOneLine(line: string, indent: string)
    requires OneLine(line) && IsIndent(indent)
    ensures OneLine(Fixed(line, indent))
  {
    StripSettles(line);
    IndentIsOneLine(indent);
  }

  lemma IndentIsOneLine(indent: string)
    requires IsIndent(indent)
    ensures OneLine(indent)
  {
  }

  /** A token of several lines keeps its first line, and each later one is stripped and put under the indent. */
  lemma RefittedLines(s: string, indent: string)
    requires '\n' in s && IsIndent(indent)
    ensures LinesLaid(s, Refitted(s, indent), indent)
  {
    SplitJoins(s);
    var lines := Split(s);
    var fixed := FixedIsJoined(lines[1..], indent);
    forall k | 0 <= k < |fixed| ensures OneLine(fixed[k]) {
      FixedIsOneLine(lines[1..][k], indent);
    }
    JoinSplits(fixed);
    SplitFirst(lines[0], JoinLines(fixed));
    assert Split(Refitted(s, indent)) == [lines[0]] + fixed;
    assert forall k :: 1 <= k < |lines| ==> lines[1..][k - 1] == lines[k];
  }

  lemma ConcatLast(pieces: seq<string>, n: nat)
    requires 0 < n <= |pieces|
    ensures Concat(pieces[..n]) == Concat(pieces[..n - 1]) + pieces[n - 1]
  {
    assert pieces[..n][..n - 1] == pieces[..n - 1];
  }

  /** In front of a token that begins a line, the printed text ends with a newline. */
  lemma LineBegins(tokens: seq<Token>, indent: seq<Option<string>>, pieces: seq<string>, i: nat)
    requires WellCut(tokens) && |pieces| == |indent| == |tokens| && BeginsLine(tokens, i)
    requires forall k :: 0 <= k < |tokens| ==> PieceLaid(tokens, k, indent[k], pieces[k])
    ensures EndsLine(Concat(pieces[..i]))
  {
    if i > 0 {
      ConcatLast(pieces, i);
      assert CutWell(tokens, i - 1) && PieceLaid(tokens, i - 1, indent[i - 1], pieces[i - 1]);
      if tokens[i - 1].kind == Newline {
        NewlineEnds(tokens, indent, pieces, i - 1);
      } else if i > 1 {
        ConcatLast(pieces, i - 1);
        assert CutWell(tokens, i - 2) && PieceLaid(tokens, i - 2, indent[i - 2], pieces[i - 2]);
        NewlineEnds(tokens, indent, pieces, i - 2);
      }
    }
  }

  lemma NewlineEnds(tokens: seq<Token>, indent: seq<Option<string>>, pieces: seq<string>, i: nat)
    requires i < |tokens| == |indent| == |pieces| && CutWell(tokens, i) && tokens[i].kind == Newline
    requires PieceLaid(tokens, i, indent[i], pieces[i])
    ensures pieces[i] != "" && pieces[i][|pieces[i]| - 1] == '\n'
  {
    assert tokens[i].lineSpan == 1;
  }

  lemma LinesRegroup(a: string, b: string, c: string)
    ensures a + "\n" + (b + "\n" + c) == (a + "\n" + b) + "\n" + c
  {
  }

  lemma {:induction false} FixedOneMore(lines: seq<string>, indent: string, n: nat)
    requires 0 < n < |lines|
    ensures FixedLines(lines[..n + 1], indent) == FixedLines(lines[..n], indent) + "\n" + Fixed(lines[n], indent)
  {
    if n == 1 {
      assert lines[..2][1..] == [lines[1]] && lines[..2][0] == lines[0] && lines[..1] == [lines[0]];
    } else {
      FixedOneMore(lines[1..], indent, n - 1);
      assert lines[..n + 1][1..] == lines[1..][..n] && lines[..n][1..] == lines[1..][..n - 1];
      LinesRegroup(Fixed(lines[0], indent), FixedLines(lines[1..][..n - 1], indent), Fixed(lines[n], indent));
    }
  }

  method FixFrags(frags: seq<string>, continueIndent: string) returns (out: string)
    ensures out == FixedLines(frags, continueIndent)
  {
    out := "";
    for k := 0 to |frags|
      invariant out == FixedLines(frags[..k], continueIndent)
    {
      var frag := Strip(frags[k]);
      var fixed := if frag != "" then continueIndent + frag else "";
      if k == 0 {
        assert frags[..1] == [frags[0]];
        out := fixed;
      } else {
        FixedOneMore(frags, continueIndent, k);
        out := out + "\n" + fixed;
      }
    }
    assert frags[..|frags|] == frags;
  }

  method JoinAll(pieces: seq<string>) returns (out: string)
    ensures out == Concat(pieces)
  {
    out := "";
    for i := 0 to |pieces|
      invariant out == Concat(pieces[..i])
    {
      assert pieces[..i + 1][..i] == pieces[..i];
      out := out + pieces[i];
    }
    assert pieces[..|pieces|] == pieces;
  }

  class Printer {
    const tokens: seq<Token>
    const startOf: map<nat, nat>
    const endOf: map<nat, nat>
    var newS: seq<string>
    var indent: seq<Option<string>>
    var origIndent: seq<Option<string>>
    var childIndent: seq<Option<string>>
    var indentIsFinal: seq<bool>
    var parent: seq<Option<nat>>

    constructor (tokens: seq<Token>, startOf: map<nat, nat>, endOf: map<nat, nat>)
      ensures this.tokens == tokens && this.startOf == startOf && this.endOf == endOf && Sized()
      ensures Untouched()
    {
      this.tokens, this.startOf, this.endOf := tokens, startOf, endOf;
      newS := seq(|tokens|, i => "");
      indent := seq(|tokens|, i => None);
      origIndent := seq(|tokens|, i => None);
      childIndent := seq(|tokens|, i => None);
      indentIsFinal := seq(|tokens|, i => false);
      parent := seq(|tokens|, i => None);
    }

    ghost predicate Sized()
      reads this
    {
      && |newS| == |indent| == |origIndent| == |childIndent| == |indentIsFinal| == |parent| == |tokens|
      && forall i :: 0 <= i < |parent| ==> parent[i].Some? ==> parent[i].value < i
    }

    /** No pass has been over the tokens. */
    ghost predicate Untouched()
      reads this
      requires Sized()
    {
      forall i :: 0 <= i < |tokens| ==>
        indent[i].None? && origIndent[i].None? && childIndent[i].None? && parent[i].None? && !indentIsFinal[i]
    }

    /** Every indent is white space, on a token that stands at the start of its line. */
    ghost predicate Indented()
      reads this
      requires Sized()
    {
      && (forall i :: 0 <= i < |tokens| ==> Blank(indent[i]) && Blank(childIndent[i]))
      && (forall i :: 0 <= i < |tokens| ==> indent[i].Some? ==> AtStart(tokens, i))
    }

    method ShiftIndents()
      requires Sized() && WellCut(tokens) && |tokens| > 0
      requires forall i :: 0 <= i < |tokens| ==> newS[i] == tokens[i].s && indent[i].None?
      modifies this`newS, this`indent
      ensures Sized()
      ensures forall i :: 0 <= i < |tokens| ==> newS[i] == ShiftedText(tokens, i) && indent[i] == ShiftedIndent(tokens, i)
    {
      indent := indent[0 := Some("")];
      for i := 0 to |tokens| - 1
        invariant Sized() && ShiftedUpTo(tokens, i, newS, indent)
      {
        ghost var texts, indents := newS, indent;
        if tokens[i].kind == Indent {
          indent := indent[i + 1 := Some(tokens[i].s)];
          newS := newS[i := ""];
        }
        if tokens[i].kind == Newline && tokens[i + 1].kind != Indent {
          indent := indent[i + 1 := Some("")];
        }
        ShiftedOneMore(tokens, i, texts, indents, newS, indent);
      }
    }

    /** The second pass stands before token `i`, inside the start tokens of `stack`, of which `open` is the innermost. */
    ghost predicate Ready(i: nat, open: Option<nat>, stack: seq<nat>)
      reads this
    {
      && Sized() && Indented() && LinksFit(tokens, startOf) && i < |tokens| && (open.Some? ==> open.value < i)
      && Standing(tokens, stack, i, indent, origIndent, childIndent, parent) && open == Top(stack)
    }

    /** What it remembers of them fits the tokens before `n`. */
    ghost predicate Remembers(inside: seq<Option<nat>>, stack: seq<nat>, n: nat)
      reads this
    {
      Marked(tokens, inside, stack, n, indent, origIndent, childIndent, indentIsFinal) && Unmarked(indentIsFinal, n)
    }

    ghost predicate Ruled(inside: seq<Option<nat>>, i: nat)
      reads this
    {
      && i < |tokens| == |inside| == |indent|
      && RuledNow(tokens, startOf, endOf, inside, indent, i)
    }

    method AdjustOne(i: nat, open: Option<nat>, ghost stack: seq<nat>, ghost inside: seq<Option<nat>>)
      returns (r: Result<Option<nat>, PrintError>)
      requires Ready(i, open, stack) && Remembers(inside, stack, i) && ParentsFit(inside) && inside[i] == open
      modifies this`indent, this`origIndent, this`childIndent, this`indentIsFinal, this`parent
      ensures Sized() && Indented() && OnlyAt(old(indent), indent, i)
      ensures r.Ok? && r.value.Some? ==> r.value.value <= i
      ensures match Entered(tokens, startOf, endOf, stack, i)
              case None => r.Err?
              case Some(next) =>
                && r == Ok(Top(next)) && Standing(tokens, next, i + 1, indent, origIndent, childIndent, parent)
                && Remembers(inside, next, i + 1) && Ruled(inside, i)
    {
      StandingIsBelow(tokens, stack, i, indent, origIndent, childIndent, parent);
      var t := tokens[i];
      if t.kind == Indent || t.kind == Whitespace || t.kind == Newline || t.tag == "code" || t.tag == "pre" {
        StandingOn(tokens, stack, i, indent, indent, origIndent, childIndent, parent);
        MarkedOn(tokens, inside, stack, i, indent, origIndent, childIndent, indentIsFinal);
        return Ok(open);
      }
      if t.tag == "else" {
        r := AdjustElse(i, open, stack, inside);
        return;
      }
      if open.Some? && indent[i].Some? {
        MarkChild(i, open.value, stack, inside);
      } else {
        MarkedOn(tokens, inside, stack, i, indent, origIndent, childIndent, indentIsFinal);
      }
      if i in endOf {
        r := AdjustStart(i, open, stack, inside);
      } else if i in startOf {
        r := AdjustEnd(i, open, stack, inside);
      } else {
        AdjustPlain(i, open, stack, inside);
        r := Ok(open);
      }
    }

    method AdjustElse(i: nat, open: Option<nat>, ghost stack: seq<nat>, ghost inside: seq<Option<nat>>)
      returns (r: Result<Option<nat>, PrintError>)
      requires Ready(i, open, stack) && Remembers(inside, stack, i) && tokens[i].tag == "else" && !PassedOver(tokens[i])
      modifies this`indent
      ensures Sized() && Indented() && OnlyAt(old(indent), indent, i)
      ensures if i in startOf
              then && r == Ok(open) && Standing(tokens, stack, i + 1, indent, origIndent, childIndent, parent)
                   && Remembers(inside, stack, i + 1) && Ruled(inside, i)
              else r.Err?
    {
      if i !in startOf {
        return Err(AssertionError);
      }
      Align(i, startOf[i]);
      ElseFits(tokens, startOf, endOf, inside, stack, i, old(indent), indent, origIndent, childIndent, parent, indentIsFinal);
      return Ok(open);
    }

    /** Line token `i` up with its start. */
    method Align(i: nat, start: nat)
      requires Sized() && Indented() && start < i < |tokens|
      modifies this`indent
      ensures Sized() && Indented() && OnlyAt(old(indent), indent, i)
      ensures indent[i] == if old(indent[i]).Some? then indent[start] else None
    {
      if indent[i].Some? {
        indent := indent[i := indent[start]];
      }
    }

    method AdjustEnd(i: nat, open: Option<nat>, ghost stack: seq<nat>, ghost inside: seq<Option<nat>>)
      returns (r: Result<Option<nat>, PrintError>)
      requires Ready(i, open, stack) && i in startOf && i !in endOf && !PassedOver(tokens[i]) && tokens[i].tag != "else"
      requires Marked(tokens, inside, stack, i + 1, indent, origIndent, childIndent, indentIsFinal)
      modifies this`indent
      ensures Sized() && Indented() && OnlyAt(old(indent), indent, i)
      ensures r.Ok? <==> Top(stack) == Some(startOf[i])
      ensures r.Ok? ==> r.value == Top(stack[..|stack| - 1]) && Standing(tokens, stack[..|stack| - 1], i + 1, indent, origIndent, childIndent, parent)
      ensures r.Ok? && r.value.Some? ==> r.value.value <= i
      ensures r.Ok? ==> Marked(tokens, inside, stack[..|stack| - 1], i + 1, indent, origIndent, childIndent, indentIsFinal) && Ruled(inside, i)
    {
      if open != Some(startOf[i]) {
        return Err(AssertionError);
      }
      Align(i, open.value);
      EndFits(tokens, startOf, endOf, inside, stack, i, old(indent), indent, origIndent, childIndent, parent, indentIsFinal);
      return Ok(parent[open.value]);
    }

    method AdjustStart(i: nat, open: Option<nat>, ghost stack: seq<nat>, ghost inside: seq<Option<nat>>)
      returns (r: Result<Option<nat>, PrintError>)
      requires Ready(i, open, stack) && i in endOf && !PassedOver(tokens[i]) && tokens[i].tag != "else"
      requires Marked(tokens, inside, stack, i + 1, indent, origIndent, childIndent, indentIsFinal)
      requires ParentsFit(inside) && inside[i] == open && !indentIsFinal[i]
      modifies this`indent, this`origIndent, this`childIndent, this`parent
      ensures Sized() && Indented() && OnlyAt(old(indent), indent, i)
      ensures r.Ok? ==> r.value == Some(i) && parent[i] == open
      ensures r.Err? <==> BeginsLine(tokens, i) && stack != [] && !BeginsLine(tokens, stack[|stack| - 1])
      ensures r.Ok? ==> Standing(tokens, stack + [i], i + 1, indent, origIndent, childIndent, parent)
      ensures r.Ok? ==> Marked(tokens, inside, stack + [i], i + 1, indent, origIndent, childIndent, indentIsFinal) && Ruled(inside, i)
    {
      if open.Some? {
        InnermostSays(tokens, inside, stack, i, indent, origIndent, childIndent, parent, indentIsFinal);
      }
      if indent[i].Some? {
        origIndent := origIndent[i := indent[i]];
        if open.Some? && childIndent[open.value].None? {
          return Err(AssertionError);
        }
        var own := if open.Some? then childIndent[open.value].value else "";
        Deeper(own);
        indent := indent[i := Some(own)];
        childIndent := childIndent[i := Some(own + "    ")];
      }
      parent := parent[i := open];
      StartFits(tokens, startOf, endOf, inside, stack, i, old(indent), indent, old(origIndent), origIndent,
                old(childIndent), childIndent, old(parent), indentIsFinal);
      return Ok(Some(i));
    }

    method AdjustPlain(i: nat, open: Option<nat>, ghost stack: seq<nat>, ghost inside: seq<Option<nat>>)
      requires Ready(i, open, stack) && i !in startOf && i !in endOf && !PassedOver(tokens[i]) && tokens[i].tag != "else"
      requires Marked(tokens, inside, stack, i + 1, indent, origIndent, childIndent, indentIsFinal) && inside[i] == open
      modifies this`indent
      ensures Sized() && Indented() && OnlyAt(old(indent), indent, i)
      ensures Standing(tokens, stack, i + 1, indent, origIndent, childIndent, parent)
      ensures Marked(tokens, inside, stack, i + 1, indent, origIndent, childIndent, indentIsFinal) && Ruled(inside, i)
    {
      if indent[i].Some? {
        if open.None? {
          indent := indent[i := Some("")];
        } else if childIndent[open.value].Some? {
          indent := indent[i := childIndent[open.value]];
        }
      }
      PlainFits(tokens, startOf, endOf, inside, stack, i, old(indent), indent, origIndent, childIndent, parent, indentIsFinal);
    }

    /** The first child of `open` that starts a line settles how far its children are indented. */
    method MarkChild(i: nat, open: nat, ghost stack: seq<nat>, ghost inside: seq<Option<nat>>)
      requires Ready(i, Some(open), stack) && Remembers(inside, stack, i) && indent[i].Some? && ChildLine(tokens, inside, open, i)
      modifies this`childIndent, this`indentIsFinal
      ensures Ready(i, Some(open), stack)
      ensures Remembers(inside, stack, i + 1) && !indentIsFinal[i]
    {
      StandingIsBelow(tokens, stack, i, indent, origIndent, childIndent, parent);
      assert Stands(tokens, stack, |stack| - 1, indent, origIndent, childIndent, parent);
      var start := tokens[open];
      if !indentIsFinal[open] && indent[i] == origIndent[open]
         && start.tag != "each" && (start.kind == DjangoStart || start.kind == HandlebarsStart || start.tag == "a") {
        StandingMarked(tokens, stack, i, indent, origIndent, childIndent, parent);
        childIndent := childIndent[open := indent[open]];
      }
      indentIsFinal := indentIsFinal[open := true];
      MarkedChild(tokens, inside, stack, i, open, indent, origIndent, old(childIndent), childIndent, old(indentIsFinal));
    }

    /** The second pass before token `i`: every token before it has the indent the rules give it. */
    ghost predicate Adjusted(i: nat, open: Option<nat>, stack: seq<nat>, inside: seq<Option<nat>>)
      reads this
    {
      && Sized() && Indented() && LinksFit(tokens, startOf) && i <= |tokens| && (open.Some? ==> open.value < i)
      && Around(tokens, startOf, endOf, i) == Some(stack) && open == Top(stack)
      && Standing(tokens, stack, i, indent, origIndent, childIndent, parent)
      && inside == Parents(tokens, startOf, endOf) && Remembers(inside, stack, i)
      && RuledBelow(tokens, startOf, endOf, inside, indent, i)
    }

    method AdjustNext(i: nat, open: Option<nat>, ghost stack: seq<nat>, ghost inside: seq<Option<nat>>)
      returns (r: Result<Option<nat>, PrintError>, ghost next: seq<nat>)
      requires Adjusted(i, open, stack, inside) && i < |tokens|
      modifies this`indent, this`origIndent, this`childIndent, this`indentIsFinal, this`parent
      ensures Sized() && Indented()
      ensures r.Ok? ==> Adjusted(i + 1, r.value, next, inside)
      ensures r.Err? <==> Around(tokens, startOf, endOf, i + 1).None?
    {
      ParentsAreBefore(tokens, startOf, endOf);
      r := AdjustOne(i, open, stack, inside);
      next := [];
      if r.Ok? {
        next := Entered(tokens, startOf, endOf, stack, i).value;
        RuledOneMore(tokens, startOf, endOf, inside, old(indent), indent, i);
      }
    }

    /** The loop of the second pass. */
    method AdjustAll(ghost inside: seq<Option<nat>>) returns (adjusted: bool, open: Option<nat>, ghost stack: seq<nat>)
      requires Adjusted(0, None, [], inside)
      modifies this`indent, this`origIndent, this`childIndent, this`indentIsFinal, this`parent
      ensures adjusted ==> Adjusted(|tokens|, open, stack, inside)
      ensures !adjusted ==> Sized() && Indented() && Around(tokens, startOf, endOf, |tokens|).None?
    {
      open, stack := None, [];
      for i := 0 to |tokens|
        invariant Adjusted(i, open, stack, inside)
      {
        var next;
        next, stack := AdjustNext(i, open, stack, inside);
        if next.Err? {
          StopsForGood(tokens, startOf, endOf, i + 1, |tokens|);
          return false, None, [];
        }
        open := next.value;
      }
      return true, open, stack;
    }

    /** After the second pass every token that begins a line has the indent its place in the elements calls for. */
    method AdjustIndentation() returns (r: Result<(), PrintError>)
      requires Sized() && Indented() && LinksFit(tokens, startOf)
      requires forall i :: 0 <= i < |tokens| ==>
                 indent[i] == ShiftedIndent(tokens, i) && origIndent[i].None? && childIndent[i].None? && !indentIsFinal[i]
      modifies this`indent, this`origIndent, this`childIndent, this`indentIsFinal, this`parent
      ensures Sized() && Indented()
      ensures r.Ok? <==> Around(tokens, startOf, endOf, |tokens|).Some?
      ensures r.Ok? ==> WellIndented(tokens, startOf, endOf, indent)
    {
      ghost var inside := Parents(tokens, startOf, endOf);
      var adjusted, open, stack := AdjustAll(inside);
      if !adjusted {
        return Err(AssertionError);
      }
      AllRuled(open, stack, inside);
      return Ok(());
    }

    lemma AllRuled(open: Option<nat>, stack: seq<nat>, inside: seq<Option<nat>>)
      requires Adjusted(|tokens|, open, stack, inside)
      ensures WellIndented(tokens, startOf, endOf, indent)
    {
      forall i | 0 <= i < |tokens| ensures RuledAt(tokens, startOf, endOf, inside, indent, i, |tokens|) {
        assert RuledNow(tokens, startOf, endOf, inside, indent, i);
        RuledForGood(tokens, startOf, endOf, inside, indent, i, |tokens|);
      }
    }

    /** The text the third pass leaves of token `i`. */
    ghost function Refit(i: nat, s: string): string
      reads this`indent
      requires i < |tokens| == |indent|
    {
      var t := tokens[i];
      if t.kind == Code || t.lineSpan == 1 || indent[i].None? then s else Refitted(s, LaterIndent(t, indent[i].value))
    }

    method FixMultiLineTags()
      requires Sized()
      modifies this`newS
      ensures Sized() && forall i :: 0 <= i < |tokens| ==> newS[i] == Refit(i, old(newS[i]))
    {
      for i := 0 to |tokens|
        invariant Sized() && forall k :: 0 <= k < |tokens| ==> newS[k] == if k < i then Refit(k, old(newS[k])) else old(newS[k])
      {
        var t := tokens[i];
        if t.kind != Code && t.lineSpan != 1 && indent[i].Some? {
          var continueIndent := indent[i].value;
          if t.kind !in {DjangoComment, HandlebarsComment, HtmlComment, Text} {
            continueIndent := continueIndent + "    ";
          }
          var frags := Split(newS[i]);
          var fixed := FixFrags(frags[1..], continueIndent);
          newS := newS[i := frags[0] + "\n" + fixed];
        }
      }
    }

    ghost function Prefixed(i: nat, s: string): string
      reads this`indent
      requires i < |indent|
    {
      if indent[i].Some? then indent[i].value + s else s
    }

    method ApplyIndents()
      requires Sized()
      modifies this`newS
      ensures Sized() && forall i :: 0 <= i < |tokens| ==> newS[i] == Prefixed(i, old(newS[i]))
    {
      for i := 0 to |tokens|
        invariant Sized() && forall k :: 0 <= k < |tokens| ==> newS[k] == if k < i then Prefixed(k, old(newS[k])) else old(newS[k])
      {
        if indent[i].Some? && indent[i].value != "" {
          newS := newS[i := indent[i].value + newS[i]];
        }
      }
    }

    /** What all passes make of token `i` reads as the token did. */
    lemma PrintedFits(i: nat)
      requires Sized() && Indented() && WellCut(tokens) && i < |tokens|
      ensures PieceFits(tokens, i, Prefixed(i, Refit(i, ShiftedText(tokens, i))))
    {
      var t := tokens[i];
      var p := Refit(i, ShiftedText(tokens, i));
      assert CutWell(tokens, i);
      if t.kind == Indent {
        IndentVanishes(t.s);
      } else if p != t.s {
        Deeper(indent[i].value);
        RefittedReads(t.s, LaterIndent(t, indent[i].value), Start);
      }
      if indent[i].Some? {
        IndentInFront(indent[i].value, p);
      }
    }

    lemma PrintedSettles(pieces: seq<string>)
      requires Sized() && Indented() && WellCut(tokens) && |pieces| == |tokens|
      requires forall i :: 0 <= i < |tokens| ==> pieces[i] == Prefixed(i, Refit(i, ShiftedText(tokens, i)))
      ensures Settled(Concat(pieces)) == Settled(Joined(tokens)) && Solid(Concat(pieces)) == Solid(Joined(tokens))
    {
      forall i | 0 <= i < |tokens| ensures PieceFits(tokens, i, pieces[i]) {
        PrintedFits(i);
      }
      PiecesSettle(tokens, pieces, |tokens|);
      assert tokens[..|tokens|] == tokens && pieces[..|tokens|] == pieces;
      SettledKeepsSolid(Joined(tokens), Start);
      SettledKeepsSolid(Concat(pieces), Start);
    }

    /** What all passes make of token `i`: its indent, and its lines. */
    lemma PrintedLaid(i: nat)
      requires Sized() && Indented() && WellCut(tokens) && WellIndented(tokens, startOf, endOf, indent) && i < |tokens|
      ensures PieceLaid(tokens, i, indent[i], Prefixed(i, Refit(i, ShiftedText(tokens, i))))
    {
      var t := tokens[i];
      var body := Refit(i, ShiftedText(tokens, i));
      assert CutWell(tokens, i);
      if t.kind == Indent && i + 1 < |tokens| {
        assert RuledAt(tokens, startOf, endOf, Parents(tokens, startOf, endOf), indent, i, |tokens|);
      } else {
        if t.kind != Code && t.lineSpan != 1 && indent[i].Some? {
          Deeper(indent[i].value);
          RefittedLines(t.s, LaterIndent(t, indent[i].value));
        }
        assert BodyLaid(t, indent[i], body);
      }
    }

    lemma AllPrintedLaid(pieces: seq<string>)
      requires Sized() && Indented() && WellCut(tokens) && WellIndented(tokens, startOf, endOf, indent) && |pieces| == |tokens|
      requires forall i :: 0 <= i < |tokens| ==> pieces[i] == Prefixed(i, Refit(i, ShiftedText(tokens, i)))
      ensures LaidOut(tokens, indent, pieces, Concat(pieces))
    {
      forall i | 0 <= i < |tokens| ensures PieceLaid(tokens, i, indent[i], pieces[i]) {
        PrintedLaid(i);
      }
      forall i | 0 <= i < |tokens| && BeginsLine(tokens, i) ensures EndsLine(Concat(pieces[..i])) {
        LineBegins(tokens, indent, pieces, i);
      }
    }

    /**
    The printed text is the tokens in order, each line under the indent its place calls for; compared with
    the tokens nothing changes but the white space at the two ends of lines.
    */
    method PrettyPrintHtml() returns (r: Result<string, PrintError>, ghost indents: seq<Option<string>>, ghost pieces: seq<string>)
      requires Sized() && Untouched() && WellCut(tokens) && LinksFit(tokens, startOf)
      modifies this
      ensures r.Ok? ==> WellIndented(tokens, startOf, endOf, indents) && LaidOut(tokens, indents, pieces, r.value)
      ensures r.Ok? ==> Settled(r.value) == Settled(Joined(tokens)) && Solid(r.value) == Solid(Joined(tokens))
      ensures r == Err(NoTokens) <==> tokens == []
      ensures r == Err(AssertionError) <==> Around(tokens, startOf, endOf, |tokens|).None?
    {
      indents, pieces := [], [];
      if tokens == [] {
        return Err(NoTokens), [], [];
      }
      newS := seq(|tokens|, i requires 0 <= i < |tokens| => tokens[i].s);
      ShiftIndents();
      ShiftedIsIndented();
      var adjusted := AdjustIndentation();
      if adjusted.Err? {
        return Err(AssertionError), [], [];
      }
      FixMultiLineTags();
      ApplyIndents();
      PrintedSettles(newS);
      AllPrintedLaid(newS);
      var out := JoinAll(newS);
      return Ok(out), indent, newS;
    }

    lemma ShiftedIsIndented()
      requires Sized() && WellCut(tokens)
      requires forall i :: 0 <= i < |tokens| ==> indent[i] == ShiftedIndent(tokens, i) && childIndent[i].None?
      ensures Indented()
    {
      forall i | 0 <= i < |tokens| ensures Blank(indent[i]) && (indent[i].Some? ==> AtStart(tokens, i)) {
        if i > 0 {
          assert CutWell(tokens, i - 1);
        }
      }
    }
  }
}
