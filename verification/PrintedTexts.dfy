/** Two families of texts that the tokenizer and the matcher accept and the printer does not print. */
module PrintedTexts {
  import opened Options
  import opened Tokens
  import opened Scanners
  import opened Tokenizer
  import opened TokenizerCases
  import opened TemplateGrammar
  import opened TagMatcher
  import opened TagLinks
  import opened Layout
  import opened PrettyPrint
  import opened Printable

  // ---------------------------------------------------------------- cutting one token

  predicate IsLetter(c: char) {
    'a' <= c <= 'z'
  }

  /** The name of an ordinary element: not empty by nature, no code block, not called else. */
  ghost predicate IsName(w: string) {
    w != "" && (forall k :: 0 <= k < |w| ==> IsLetter(w[k])) && w !in VOID_TAGS && w !in CODE_TAGS && w != "else"
  }

  function StartTag(w: string): string {
    "<" + w + ">"
  }

  function EndTag(w: string): string {
    "</" + w + ">"
  }

  function TokenAt(text: string, at: nat, kind: Kind, s: string, tag: string): Token
    requires at <= |text|
  {
    Token(kind, s, tag, LineAt(text, at), ColumnAt(text, at), LineSpan(s))
  }

  lemma LooksLike(text: string, at: nat, s: string)
    requires LookingAt(text, at, s)
    ensures forall k :: 0 <= k < |s| ==> text[at + k] == s[k]
  {
    forall k | 0 <= k < |s| ensures text[at + k] == s[k] {
      assert text[at + k] == text[at..at + |s|][k];
    }
  }

  lemma OtherwiseLooks(text: string, at: nat, p: string, k: nat)
    requires k < |p| && at + k < |text| && text[at + k] != p[k]
    ensures !LookingAt(text, at, p)
  {
    if LookingAt(text, at, p) {
      LooksLike(text, at, p);
    }
  }

  lemma {:induction false} NoQuotes(text: string, from: nat, to: nat)
    requires from <= to <= |text| && forall k :: from <= k < to ==> text[k] != '"'
    ensures Quotes(text, from, to) == 0
  {
    if from < to {
      NoQuotes(text, from, to - 1);
    }
  }

  /** Nothing but letters, and one slash, up to the bracket. */
  lemma TagEnds(text: string, at: nat, end: nat)
    requires at + 2 <= end <= |text| && text[end - 1] == '>' && forall k :: at + 1 <= k < end - 1 ==> IsLetter(text[k]) || text[k] == '/'
    ensures HtmlTagEnds(text, at, end)
  {
    NoQuotes(text, at + 1, end - 1);
  }

  lemma {:induction false} WholeWord(w: string)
    requires forall k :: 0 <= k < |w| ==> !IsSpace(w[k])
    ensures WordLength(w) == |w|
  {
    if w != "" {
      WholeWord(w[1..]);
    }
  }

  lemma FirstIsWhole(w: string)
    requires w != "" && forall k :: 0 <= k < |w| ==> !IsSpace(w[k])
    ensures FirstWord(w) == Some(w) && Strip(w) == w
  {
    WholeWord(w);
    WordStripped(w);
    assert w[..|w|] == w;
  }

  lemma StartLabelled(w: string)
    requires IsName(w)
    ensures HtmlLabel(StartTag(w)) == Ok((HtmlStart, w)) && Strip(w) == w
  {
    var s := StartTag(w);
    FirstIsWhole(w);
    assert Inner(s, 1, 1) == w;
    assert s[|s| - 2] == w[|w| - 1];
    assert !EndsWith(s, "/>") by {
      assert s[|s| - 2..][0] == s[|s| - 2];
    }
    assert w[0] != '!' && "!DOCTYPE"[0] == '!' && "!doctype"[0] == '!';
  }

  lemma ReadAsNamed(text: string, reader: Reader, before: Option<(Token, nat)>, t: Token, at: nat)
    requires at < |text| && t.s != "" && LookingAt(text, at, t.s) && reader.ends(at, at + |t.s|) && !reader.plain(at)
    requires !AfterCodeTag(reader, before) || text[at] == '<'
    requires t.kind != Code && reader.name(at, t.s, AfterNewline(before)) == Ok((t.kind, t.tag)) && Strip(t.tag) == t.tag
    requires t.line == LineAt(text, at) && t.col == ColumnAt(text, at) && t.lineSpan == LineSpan(t.s)
    ensures ReadsAs(text, reader, before, t, at)
  {
  }

  /** What the reader says where the branch is known. */
  lemma ReaderAt(text: string, format: Format, reader: Reader, at: nat, branch: Branch, s: string, afterNewline: bool)
    requires IsReader(reader, text, format) && at < |text| && BranchAt(text, at, format) == branch
    ensures reader.ends(at, at + |s|) == TokenEnds(branch, text, at, at + |s|) && reader.plain(at) == (branch == TextAt)
    ensures reader.name(at, s, afterNewline) == Label(branch, s, afterNewline)
  {
    assert reader.ends(at, at + |s|) == EndsAt(text, format, at, at + |s|);
    assert reader.plain(at) == TextStands(text, format, at);
    assert reader.name(at, s, afterNewline) == LabelAt(text, format, at, s, afterNewline);
  }

  lemma StartTagStands(text: string, format: Format, at: nat, w: string)
    requires IsName(w) && LookingAt(text, at, StartTag(w))
    ensures at < |text| && text[at] == '<' && BranchAt(text, at, format) == HtmlStartAt && HtmlTagEnds(text, at, at + |StartTag(w)|)
  {
    var s := StartTag(w);
    LooksLike(text, at, s);
    assert s[0] == '<' && s[|s| - 1] == '>' && forall k {:trigger w[k]} :: 0 <= k < |w| ==> s[1 + k] == w[k];
    assert text[at + 1] == w[0];
    OtherwiseLooks(text, at, "<!--", 1);
    OtherwiseLooks(text, at, "</", 1);
    forall k | at + 1 <= k < at + |s| - 1 ensures IsLetter(text[k]) {
      assert text[k] == s[k - at] == w[k - at - 1];
    }
    TagEnds(text, at, at + |s|);
  }

  lemma StartTagKnown(text: string, format: Format, reader: Reader, at: nat, w: string, afterNewline: bool)
    requires IsReader(reader, text, format) && IsName(w) && LookingAt(text, at, StartTag(w))
    ensures at < |text| && text[at] == '<' && reader.ends(at, at + |StartTag(w)|) && !reader.plain(at)
    ensures reader.name(at, StartTag(w), afterNewline) == Ok((HtmlStart, w)) && Strip(w) == w
  {
    StartTagStands(text, format, at, w);
    StartLabelled(w);
    ReaderAt(text, format, reader, at, HtmlStartAt, StartTag(w), afterNewline);
  }

  lemma OpensNoCode(text: string, format: Format, reader: Reader, at: nat, w: string)
    requires IsReader(reader, text, format) && IsName(w)
    ensures !reader.opens(at, StartTag(w))
  {
    StartLabelled(w);
    assert reader.opens(at, StartTag(w)) == CodeTagAt(text, format, at, StartTag(w));
  }

  lemma EndTagStands(text: string, format: Format, at: nat, w: string)
    requires IsName(w) && LookingAt(text, at, EndTag(w))
    ensures at < |text| && text[at] == '<' && BranchAt(text, at, format) == HtmlEndAt && HtmlTagEnds(text, at, at + |EndTag(w)|)
  {
    var s := EndTag(w);
    LooksLike(text, at, s);
    assert s[0] == '<' && s[1] == '/' && s[|s| - 1] == '>' && forall k {:trigger w[k]} :: 0 <= k < |w| ==> s[2 + k] == w[k];
    OtherwiseLooks(text, at, "<!--", 1);
    assert text[at..at + 2] == "</";
    forall k | at + 1 <= k < at + |s| - 1 ensures IsLetter(text[k]) || text[k] == '/' {
      assert text[k] == s[k - at];
      assert k > at + 1 ==> s[k - at] == w[k - at - 2];
    }
    TagEnds(text, at, at + |s|);
  }

  lemma EndTagKnown(text: string, format: Format, reader: Reader, at: nat, w: string, afterNewline: bool)
    requires IsReader(reader, text, format) && IsName(w) && LookingAt(text, at, EndTag(w))
    ensures at < |text| && text[at] == '<' && reader.ends(at, at + |EndTag(w)|) && !reader.plain(at)
    ensures reader.name(at, EndTag(w), afterNewline) == Ok((HtmlEnd, w)) && Strip(w) == w
  {
    EndTagStands(text, format, at, w);
    assert Inner(EndTag(w), 2, 1) == w;
    FirstIsWhole(w);
    ReaderAt(text, format, reader, at, HtmlEndAt, EndTag(w), afterNewline);
  }

  lemma NewlineKnown(text: string, format: Format, reader: Reader, at: nat, afterNewline: bool)
    requires IsReader(reader, text, format) && at < |text| && text[at] == '\n'
    ensures LookingAt(text, at, "\n") && reader.ends(at, at + |"\n"|) && !reader.plain(at)
    ensures reader.name(at, "\n", afterNewline) == Ok((Newline, "newline")) && Strip("newline") == "newline"
  {
    assert text[at..at + 1] == "\n";
    FirstIsWhole("newline");
    ReaderAt(text, format, reader, at, NewlineAt, "\n", afterNewline);
  }

  lemma {:induction false} RunBefore(text: string, i: nat, end: nat)
    requires i <= end < |text| && text[end] == '<' && forall k :: i <= k < end ==> !Breaks(text[k])
    ensures TextRun(text, i) == text[i..end]
    decreases end - i
  {
    if i < end {
      RunBefore(text, i + 1, end);
    }
  }

  lemma ReadAsText(text: string, reader: Reader, t: Token, at: nat)
    requires at < |text| && t.s != "" && t.s == Strip(TextRun(text, at)) && at + |t.s| <= |text|
    requires reader.ends(at, at + |t.s|) && reader.plain(at) && reader.name(at, t.s, true) == Ok((Text, "")) && t.kind == Text && t.tag == ""
    requires t.line == LineAt(text, at) && t.col == ColumnAt(text, at) && t.lineSpan == LineSpan(t.s)
    ensures ReadsAs(text, reader, None, t, at)
  {
    assert Strip("") == "";
  }

  lemma WordKnown(text: string, format: Format, reader: Reader, x: string)
    requires IsReader(reader, text, format) && IsWord(x) && x <= text && |x| < |text| && text[|x|] == '<'
    ensures x == Strip(TextRun(text, 0)) && reader.ends(0, |x|) && reader.plain(0) && reader.name(0, x, true) == Ok((Text, ""))
  {
    assert forall k :: 0 <= k < |x| ==> text[k] == x[k];
    RunBefore(text, 0, |x|);
    assert text[0..|x|] == x;
    FirstIsWhole(x);
    assert text[0] == x[0];
    TextFacts(text, format, x);
    WordFirst(text, format, reader, x, |x|);
  }

  lemma TextFacts(text: string, format: Format, x: string)
    requires |text| > 0 && !IsSpace(text[0]) && !Breaks(text[0]) && |Strip(TextRun(text, 0))| == |x|
    ensures EndsAt(text, format, 0, |x|) && TextStands(text, format, 0) && LabelAt(text, format, 0, x, true) == Ok((Text, ""))
  {
    assert BranchAt(text, 0, format) == TextAt;
  }

  lemma WordFirst(text: string, format: Format, reader: Reader, x: string, end: nat)
    requires IsReader(reader, text, format) && EndsAt(text, format, 0, end) && TextStands(text, format, 0)
    requires LabelAt(text, format, 0, x, true) == Ok((Text, ""))
    ensures reader.ends(0, end) && reader.plain(0) && reader.name(0, x, true) == Ok((Text, ""))
  {
  }

  // ---------------------------------------------------------------- cutting one after the other

  type Reading = (Option<(Token, nat)>, Token, nat) -> bool

  ghost predicate Cuts(text: string, reader: Reader, before: Option<(Token, nat)>, t: Token, at: nat) {
    ReadsAs(text, reader, before, t, at)
  }

  /** `reading` is what the tokenizer does with the text. */
  ghost predicate Reads(reading: Reading, text: string, format: Format, reader: Reader) {
    && IsReader(reader, text, format)
    && forall before, t, at: nat {:trigger Cuts(text, reader, before, t, at)} :: reading(before, t, at) == Cuts(text, reader, before, t, at)
  }

  ghost predicate CutSoFar(reading: Reading, tokens: seq<Token>, done: nat) {
    Readings(reading, tokens) && |Joined(tokens)| == done
  }

  lemma CutOneMore(reading: Reading, tokens: seq<Token>, done: nat, t: Token)
    requires CutSoFar(reading, tokens, done) && reading(Before(tokens, |tokens|), t, done)
    ensures CutSoFar(reading, tokens + [t], done + |t.s|) && Before(tokens + [t], |tokens| + 1) == Some((t, done))
  {
    var u := tokens + [t];
    OffsetAtEnd(tokens, t);
    forall n: nat | n < |u| ensures ReadingAt(reading, u, n) {
      OffsetsStay(tokens, t, n);
      assert n < |tokens| ==> ReadingAt(reading, tokens, n);
    }
  }

  lemma CutWhole(reading: Reading, text: string, format: Format, tokens: seq<Token>, r: Outcome)
    requires Reads(reading, text, format, ReaderOf(text, format)) && CutSoFar(reading, tokens, |text|) && IsOutcome(text, ReaderOf(text, format), r)
    ensures r == Whole(tokens)
  {
    var reader := ReaderOf(text, format);
    forall n | 0 <= n < |tokens| ensures ReadsAs(text, reader, Before(tokens, n), tokens[n], Offset(tokens, n)) {
      assert ReadingAt(reading, tokens, n);
      assert Cuts(text, reader, Before(tokens, n), tokens[n], Offset(tokens, n));
    }
    OnlyOutcome(text, format, tokens, r);
  }

  lemma ReadingOf(text: string, format: Format) returns (reading: Reading)
    ensures Reads(reading, text, format, ReaderOf(text, format))
  {
    var reader := ReaderOf(text, format);
    reading := (before: Option<(Token, nat)>, t: Token, at: nat) => Cuts(text, reader, before, t, at);
  }

  /** One more token, of any kind but plain text and code. */
  lemma CutNamed(reading: Reading, text: string, format: Format, reader: Reader, tokens: seq<Token>, done: nat, s: string, kind: Kind, tag: string)
    returns (t: Token)
    requires Reads(reading, text, format, reader) && CutSoFar(reading, tokens, done)
    requires done < |text| && s != "" && LookingAt(text, done, s) && reader.ends(done, done + |s|) && !reader.plain(done)
    requires !AfterCodeTag(reader, Before(tokens, |tokens|)) || text[done] == '<'
    requires kind != Code && reader.name(done, s, AfterNewline(Before(tokens, |tokens|))) == Ok((kind, tag)) && Strip(tag) == tag
    ensures CutSoFar(reading, tokens + [t], done + |s|) && t.kind == kind && t.tag == tag && Before(tokens + [t], |tokens| + 1) == Some((t, done)) && t.s == s
  {
    t := TokenAt(text, done, kind, s, tag);
    ReadAsNamed(text, reader, Before(tokens, |tokens|), t, done);
    assert Cuts(text, reader, Before(tokens, |tokens|), t, done);
    CutOneMore(reading, tokens, done, t);
  }

  lemma CutStart(reading: Reading, text: string, format: Format, reader: Reader, tokens: seq<Token>, done: nat, w: string) returns (t: Token)
    requires Reads(reading, text, format, reader) && CutSoFar(reading, tokens, done) && IsName(w) && LookingAt(text, done, StartTag(w))
    ensures CutSoFar(reading, tokens + [t], done + |StartTag(w)|) && t.kind == HtmlStart && t.tag == w
    ensures !AfterCodeTag(reader, Before(tokens + [t], |tokens| + 1))
  {
    StartTagKnown(text, format, reader, done, w, AfterNewline(Before(tokens, |tokens|)));
    OpensNoCode(text, format, reader, done, w);
    t := CutNamed(reading, text, format, reader, tokens, done, StartTag(w), HtmlStart, w);
  }

  lemma CutEnd(reading: Reading, text: string, format: Format, reader: Reader, tokens: seq<Token>, done: nat, w: string) returns (t: Token)
    requires Reads(reading, text, format, reader) && CutSoFar(reading, tokens, done) && IsName(w) && LookingAt(text, done, EndTag(w))
    ensures CutSoFar(reading, tokens + [t], done + |EndTag(w)|) && t.kind == HtmlEnd && t.tag == w
  {
    EndTagKnown(text, format, reader, done, w, AfterNewline(Before(tokens, |tokens|)));
    t := CutNamed(reading, text, format, reader, tokens, done, EndTag(w), HtmlEnd, w);
  }

  lemma CutNewline(reading: Reading, text: string, format: Format, reader: Reader, tokens: seq<Token>, done: nat) returns (t: Token)
    requires Reads(reading, text, format, reader) && CutSoFar(reading, tokens, done) && done < |text| && text[done] == '\n'
    requires !AfterCodeTag(reader, Before(tokens, |tokens|))
    ensures CutSoFar(reading, tokens + [t], done + 1) && t.kind == Newline
  {
    NewlineKnown(text, format, reader, done, AfterNewline(Before(tokens, |tokens|)));
    t := CutNamed(reading, text, format, reader, tokens, done, "\n", Newline, "newline");
  }

  lemma CutWord(reading: Reading, text: string, format: Format, reader: Reader, x: string) returns (t: Token)
    requires Reads(reading, text, format, reader) && IsWord(x) && x <= text && |x| < |text| && text[|x|] == '<'
    ensures CutSoFar(reading, [] + [t], |x|) && t.kind == Text && t.tag == ""
  {
    t := TokenAt(text, 0, Text, x, "");
    WordKnown(text, format, reader, x);
    ReadAsText(text, reader, t, 0);
    assert Cuts(text, reader, Before([], 0), t, 0);
    CutOneMore(reading, [], 0, t);
  }

  // ---------------------------------------------------------------- an element that starts a line inside one that does not

  /** Text, then an element on the same line that has another element on its next line. */
  predicate InlineParent(tokens: seq<Token>, v: string, w: string) {
    && |tokens| == 6 && tokens[0].kind == Text && tokens[0].tag == "" && tokens[1].kind == HtmlStart && tokens[2].kind == Newline
    && tokens[3].kind == HtmlStart && tokens[4].kind == HtmlEnd && tokens[5].kind == HtmlEnd
    && tokens[1].tag == tokens[5].tag == v && tokens[3].tag == tokens[4].tag == w
  }

  lemma NoTilde(w: string)
    requires IsName(w)
    ensures Trim(w, {'~'}) == w
  {
  }

  function Rows(tokens: seq<Token>): Forest
    requires |tokens| == 6
  {
    Leaf(tokens[0], Element(tokens[1], Leaf(tokens[2], Element(tokens[3], Nil, tokens[4], Nil)), tokens[5], Nil))
  }

  lemma FitsTogether(start: Token, end: Token, w: string)
    requires IsName(w) && start.kind == HtmlStart && end.kind == HtmlEnd && start.tag == end.tag == w
    ensures var r := TemplateRules();
            && r.flavor(start).Starts? && r.flavor(end).Ends? && !r.isElse(end) && r.trouble(start, end).None?
            && forall foreign :: r.void(start, foreign)
  {
    NoTilde(w);
  }

  lemma InlineDerives(tokens: seq<Token>, v: string, w: string)
    requires InlineParent(tokens, v, w) && IsName(v) && IsName(w)
    ensures Derives(TemplateRules(), Rows(tokens), None, false) && Yield(Rows(tokens)) == tokens
  {
    var r := TemplateRules();
    FitsTogether(tokens[1], tokens[5], v);
    FitsTogether(tokens[3], tokens[4], w);
    var inner := Element(tokens[3], Nil, tokens[4], Nil);
    var outer := Element(tokens[1], Leaf(tokens[2], inner), tokens[5], Nil);
    assert Derives(r, inner, Some(tokens[1]), r.foreign(tokens[1]));
    assert r.flavor(tokens[2]).Neither? && r.void(tokens[2], r.foreign(tokens[1]));
    assert Derives(r, Leaf(tokens[2], inner), Some(tokens[1]), r.foreign(tokens[1]));
    assert Derives(r, outer, None, false);
    assert Yield(inner) == [tokens[3], tokens[4]];
    assert Yield(Leaf(tokens[2], inner)) == [tokens[2], tokens[3], tokens[4]];
    assert Yield(outer) == [tokens[1], tokens[2], tokens[3], tokens[4], tokens[5]];
  }

  lemma InlineLinks(tokens: seq<Token>, v: string, w: string, m: Machine)
    requires InlineParent(tokens, v, w) && WellLinked(TemplateRules(), tokens, m)
    ensures 1 in m.endOf && m.endOf[1] >= 4 && 3 in m.endOf && forall c: nat :: c in m.endOf ==> c == 1 || c == 3
  {
    LinksAt(TemplateRules(), tokens, m, 1);
    LinksAt(TemplateRules(), tokens, m, 3);
    InlineEnds(tokens, v, w, m.endOf[1]);
    forall c: nat | c in m.endOf ensures c == 1 || c == 3 {
      LinksAt(TemplateRules(), tokens, m, c);
      InlineEnds(tokens, v, w, c);
    }
  }

  lemma InlineEnds(tokens: seq<Token>, v: string, w: string, c: nat)
    requires InlineParent(tokens, v, w)
    ensures IsEnd(TemplateRules(), tokens, c) <==> c == 4 || c == 5
    ensures IsStart(TemplateRules(), tokens, c) <==> c == 1 || c == 3
  {
  }

  lemma InlineStranded(tokens: seq<Token>, v: string, w: string, m: Machine)
    requires InlineParent(tokens, v, w) && IsName(v) && IsName(w)
    requires 1 in m.endOf && m.endOf[1] >= 4 && 3 in m.endOf && forall c: nat :: c in m.endOf ==> c == 1 || c == 3
    ensures Stranded(tokens, m, 3)
  {
    assert Closest(tokens, m, 1, 3);
  }

  lemma DerivedIsLinked(f: Forest, tokens: seq<Token>)
    requires Derives(TemplateRules(), f, None, false) && Yield(f) == tokens
    ensures var r := Rest(TemplateRules(), Fresh(), tokens, 0); r.Ok? && WellLinked(TemplateRules(), tokens, r.value)
  {
    AcceptsIffDerives(TemplateRules(), tokens);
    AcceptedLinks(TemplateRules(), tokens);
  }

  /** The matcher accepts it and the printer stops at the inner element. */
  lemma InlineStops(tokens: seq<Token>, v: string, w: string)
    requires InlineParent(tokens, v, w) && IsName(v) && IsName(w)
    ensures var r := Rest(TemplateRules(), Fresh(), tokens, 0);
            r.Ok? && Around(tokens, r.value.startOf, r.value.endOf, |tokens|).None?
  {
    InlineDerives(tokens, v, w);
    DerivedIsLinked(Rows(tokens), tokens);
    var m := Rest(TemplateRules(), Fresh(), tokens, 0).value;
    InlineLinks(tokens, v, w, m);
    InlineStranded(tokens, v, w, m);
    PrintsIff(tokens, m);
    assert !Fine(tokens, m, 3);
  }

  /** The page, in pieces. */
  function InlinePage(x: string, v: string, w: string): string {
    x + (StartTag(v) + ("\n" + (StartTag(w) + (EndTag(w) + EndTag(v)))))
  }

  /** `p` stands at `at`. */
  lemma Shifted(text: string, at: nat, s: string, rest: string)
    requires at <= |text| && text[at..] == s + rest
    ensures LookingAt(text, at, s) && at + |s| <= |text| && text[at + |s|..] == rest
  {
    assert text[at..at + |s|] == text[at..][..|s|] == s;
    assert text[at + |s|..] == text[at..][|s|..] == rest;
  }

  lemma InlineCut(reading: Reading, text: string, format: Format, reader: Reader, x: string, v: string, w: string) returns (tokens: seq<Token>)
    requires Reads(reading, text, format, reader) && IsWord(x) && IsName(v) && IsName(w) && text == InlinePage(x, v, w)
    ensures CutSoFar(reading, tokens, |text|) && InlineParent(tokens, v, w)
  {
    var r4 := EndTag(w) + EndTag(v);
    var r3 := StartTag(w) + r4;
    var r2 := "\n" + r3;
    assert text[|x|..] == StartTag(v) + r2;
    assert text[|x|] == text[|x|..][0];
    var front := FrontCut(reading, text, format, reader, x, v, r3);
    var back := BackCut(reading, text, format, reader, front, |x| + |StartTag(v)| + 1, v, w);
    tokens := front + back;
  }

  lemma FrontCut(reading: Reading, text: string, format: Format, reader: Reader, x: string, v: string, rest: string) returns (tokens: seq<Token>)
    requires Reads(reading, text, format, reader) && IsWord(x) && IsName(v) && x <= text && text[|x|..] == StartTag(v) + ("\n" + rest)
    ensures CutSoFar(reading, tokens, |x| + |StartTag(v)| + 1) && |x| + |StartTag(v)| + 1 <= |text| && text[|x| + |StartTag(v)| + 1..] == rest
    ensures |tokens| == 3 && tokens[0].kind == Text && tokens[0].tag == "" && tokens[1].kind == HtmlStart && tokens[1].tag == v && tokens[2].kind == Newline
  {
    Shifted(text, |x|, StartTag(v), "\n" + rest);
    Shifted(text, |x| + |StartTag(v)|, "\n", rest);
    assert text[|x|] == text[|x|..][0] == '<';
    assert text[|x| + |StartTag(v)|] == text[|x| + |StartTag(v)|..][0] == '\n';
    var a := CutWord(reading, text, format, reader, x);
    var b := CutStart(reading, text, format, reader, [] + [a], |x|, v);
    var c := CutNewline(reading, text, format, reader, [] + [a] + [b], |x| + |StartTag(v)|);
    tokens := [] + [a] + [b] + [c];
  }

  lemma BackCut(reading: Reading, text: string, format: Format, reader: Reader, tokens: seq<Token>, done: nat, v: string, w: string) returns (more: seq<Token>)
    requires Reads(reading, text, format, reader) && CutSoFar(reading, tokens, done) && IsName(v) && IsName(w)
    requires done <= |text| && text[done..] == StartTag(w) + (EndTag(w) + EndTag(v))
    ensures CutSoFar(reading, tokens + more, |text|) && |more| == 3 && more[0].kind == HtmlStart && more[1].kind == HtmlEnd && more[2].kind == HtmlEnd
    ensures more[0].tag == w && more[1].tag == w && more[2].tag == v
  {
    var d := done + |StartTag(w)|;
    var e := d + |EndTag(w)|;
    Shifted(text, done, StartTag(w), EndTag(w) + EndTag(v));
    Shifted(text, d, EndTag(w), EndTag(v));
    assert text[e..] == EndTag(v) + "";
    Shifted(text, e, EndTag(v), "");
    var a := CutStart(reading, text, format, reader, tokens, done, w);
    var b := CutEnd(reading, text, format, reader, tokens + [a], d, w);
    var c := CutEnd(reading, text, format, reader, tokens + [a] + [b], e, v);
    more := [a, b, c];
    assert tokens + [a] + [b] + [c] == tokens + more;
  }

  /** For any word and any two names, as in "a<b>", a newline and "<i></i></b>": tokenized, accepted and not printed. */
  lemma InlineParentStops(x: string, v: string, w: string, format: Format, r: Outcome)
    requires IsWord(x) && IsName(v) && IsName(w) && IsOutcome(InlinePage(x, v, w), ReaderOf(InlinePage(x, v, w), format), r)
    ensures r.Whole?
    ensures var m := Rest(TemplateRules(), Fresh(), r.tokens, 0);
            m.Ok? && Around(r.tokens, m.value.startOf, m.value.endOf, |r.tokens|).None?
  {
    var text := InlinePage(x, v, w);
    var reading := ReadingOf(text, format);
    var tokens := InlineCut(reading, text, format, ReaderOf(text, format), x, v, w);
    CutWhole(reading, text, format, tokens, r);
    InlineStops(tokens, v, w);
  }

  // ---------------------------------------------------------------- an end tag that does not meet its start

  const OPEN_PRE := "{{#pre~}}"
  const CLOSE_PRE := "{{/pre}}"

  lemma OpenPreStands(text: string, at: nat)
    requires LookingAt(text, at, OPEN_PRE)
    ensures at < |text| && BranchAt(text, at, Handlebars) == HandlebarsStartAt
  {
    LooksLike(text, at, OPEN_PRE);
    assert text[at + 0] == '{' && text[at + 1] == '{' && text[at + 2] == '#' && text[at + 3] == 'p';
    assert text[at..at + 3] == [text[at], text[at + 1], text[at + 2]] == "{{#";
    OtherwiseLooks(text, at, "{{!", 2);
    OtherwiseLooks(text, at, "{{>", 2);
    OtherwiseLooks(text, at, "{{#>", 3);
    OtherwiseLooks(text, at, "{{else", 2);
    OtherwiseLooks(text, at, "{{{", 2);
    OtherwiseLooks(text, at, "{{~{", 2);
  }

  lemma ClosePreStands(text: string, at: nat)
    requires LookingAt(text, at, CLOSE_PRE)
    ensures at < |text| && BranchAt(text, at, Handlebars) == HandlebarsEndAt
  {
    LooksLike(text, at, CLOSE_PRE);
    assert text[at + 0] == '{' && text[at + 1] == '{' && text[at + 2] == '/';
    assert text[at..at + 3] == [text[at], text[at + 1], text[at + 2]] == "{{/";
    OtherwiseLooks(text, at, "{{!", 2);
    OtherwiseLooks(text, at, "{{>", 2);
    OtherwiseLooks(text, at, "{{#>", 2);
    OtherwiseLooks(text, at, "{{else", 2);
    OtherwiseLooks(text, at, "{{{", 2);
    OtherwiseLooks(text, at, "{{~{", 2);
    OtherwiseLooks(text, at, "{{#", 2);
    OtherwiseLooks(text, at, "{{^", 2);
    OtherwiseLooks(text, at, "{{~#", 2);
  }

  /** The first closing braces are the last two characters. */
  lemma BracesEnd(text: string, at: nat, s: string)
    requires LookingAt(text, at, s) && |s| >= 4 && s[|s| - 2..] == "}}" && forall k :: 2 <= k < |s| - 2 ==> s[k] != '}'
    ensures HandlebarsEnds(text, at, at + |s|)
  {
    var end := at + |s|;
    assert text[end - 2..end] == text[at..end][|s| - 2..] == "}}";
    forall k | at + 2 <= k < end - 2 ensures text[k] != '}' {
      assert text[k] == text[at..end][k - at] == s[k - at];
    }
  }

  lemma OpenPreLabelled(afterNewline: bool)
    ensures Label(HandlebarsStartAt, OPEN_PRE, afterNewline) == Ok((HandlebarsStart, "pre~")) && Strip("pre~") == "pre~"
  {
    assert Inner(OPEN_PRE, 3, 2) == "pre~";
    FirstIsWhole("pre~");
    assert Trim("pre~", {'#'}) == "pre~";
  }

  lemma ClosePreLabelled(afterNewline: bool)
    ensures Label(HandlebarsEndAt, CLOSE_PRE, afterNewline) == Ok((HandlebarsEnd, "pre")) && Strip("pre") == "pre"
  {
    assert Inner(CLOSE_PRE, 3, 2) == "pre";
    FirstIsWhole("pre");
    assert Trim("pre", {'/', '#', '~'}) == "pre";
  }

  lemma OpenPreKnown(text: string, reader: Reader, at: nat, afterNewline: bool)
    requires IsReader(reader, text, Handlebars) && LookingAt(text, at, OPEN_PRE)
    ensures at < |text| && reader.ends(at, at + |OPEN_PRE|) && !reader.plain(at)
    ensures reader.name(at, OPEN_PRE, afterNewline) == Ok((HandlebarsStart, "pre~")) && !reader.opens(at, OPEN_PRE)
  {
    OpenPreStands(text, at);
    BracesEnd(text, at, OPEN_PRE);
    OpenPreLabelled(afterNewline);
    ReaderAt(text, Handlebars, reader, at, HandlebarsStartAt, OPEN_PRE, afterNewline);
    assert reader.opens(at, OPEN_PRE) == CodeTagAt(text, Handlebars, at, OPEN_PRE);
  }

  lemma ClosePreKnown(text: string, reader: Reader, at: nat, afterNewline: bool)
    requires IsReader(reader, text, Handlebars) && LookingAt(text, at, CLOSE_PRE)
    ensures at < |text| && reader.ends(at, at + |CLOSE_PRE|) && !reader.plain(at)
    ensures reader.name(at, CLOSE_PRE, afterNewline) == Ok((HandlebarsEnd, "pre"))
  {
    ClosePreStands(text, at);
    BracesEnd(text, at, CLOSE_PRE);
    ClosePreLabelled(afterNewline);
    ReaderAt(text, Handlebars, reader, at, HandlebarsEndAt, CLOSE_PRE, afterNewline);
  }

  lemma CutOpenPre(reading: Reading, text: string, reader: Reader, tokens: seq<Token>, done: nat) returns (t: Token)
    requires Reads(reading, text, Handlebars, reader) && CutSoFar(reading, tokens, done) && LookingAt(text, done, OPEN_PRE)
    requires !AfterCodeTag(reader, Before(tokens, |tokens|))
    ensures CutSoFar(reading, tokens + [t], done + |OPEN_PRE|) && t.kind == HandlebarsStart && t.tag == "pre~"
    ensures !AfterCodeTag(reader, Before(tokens + [t], |tokens| + 1))
  {
    OpenPreKnown(text, reader, done, AfterNewline(Before(tokens, |tokens|)));
    OpenPreLabelled(false);
    t := CutNamed(reading, text, Handlebars, reader, tokens, done, OPEN_PRE, HandlebarsStart, "pre~");
  }

  lemma CutClosePre(reading: Reading, text: string, reader: Reader, tokens: seq<Token>, done: nat) returns (t: Token)
    requires Reads(reading, text, Handlebars, reader) && CutSoFar(reading, tokens, done) && LookingAt(text, done, CLOSE_PRE)
    requires !AfterCodeTag(reader, Before(tokens, |tokens|))
    ensures CutSoFar(reading, tokens + [t], done + |CLOSE_PRE|) && t.kind == HandlebarsEnd && t.tag == "pre"
  {
    ClosePreKnown(text, reader, done, AfterNewline(Before(tokens, |tokens|)));
    ClosePreLabelled(false);
    t := CutNamed(reading, text, Handlebars, reader, tokens, done, CLOSE_PRE, HandlebarsEnd, "pre");
  }

  function TildePage(v: string): string {
    StartTag(v) + (OPEN_PRE + (CLOSE_PRE + EndTag(v)))
  }

  /** An element around one whose start tag is written with a tilde and whose end tag is called pre. */
  predicate TildeInside(tokens: seq<Token>, v: string) {
    && |tokens| == 4 && tokens[0].kind == HtmlStart && tokens[1].kind == HandlebarsStart && tokens[2].kind == HandlebarsEnd
    && tokens[3].kind == HtmlEnd && tokens[0].tag == tokens[3].tag == v && tokens[1].tag == "pre~" && tokens[2].tag == "pre"
  }

  lemma TildeCut(reading: Reading, text: string, reader: Reader, v: string) returns (tokens: seq<Token>)
    requires Reads(reading, text, Handlebars, reader) && IsName(v) && text == TildePage(v)
    ensures CutSoFar(reading, tokens, |text|) && TildeInside(tokens, v)
  {
    var b := |StartTag(v)|;
    var c := b + |OPEN_PRE|;
    var d := c + |CLOSE_PRE|;
    assert text[0..] == StartTag(v) + (OPEN_PRE + (CLOSE_PRE + EndTag(v)));
    Shifted(text, 0, StartTag(v), OPEN_PRE + (CLOSE_PRE + EndTag(v)));
    Shifted(text, b, OPEN_PRE, CLOSE_PRE + EndTag(v));
    Shifted(text, c, CLOSE_PRE, EndTag(v));
    assert text[d..] == EndTag(v) + "";
    Shifted(text, d, EndTag(v), "");
    var t := CutStart(reading, text, Handlebars, reader, [], 0, v);
    var u := CutOpenPre(reading, text, reader, [] + [t], b);
    var x := CutClosePre(reading, text, reader, [] + [t] + [u], c);
    var y := CutEnd(reading, text, Handlebars, reader, [] + [t] + [u] + [x], d, v);
    tokens := [] + [t] + [u] + [x] + [y];
  }

  lemma PreFits(start: Token, end: Token)
    requires start.kind == HandlebarsStart && end.kind == HandlebarsEnd && start.tag == "pre~" && end.tag == "pre"
    ensures var r := TemplateRules();
            && r.flavor(start).Starts? && r.flavor(end).Ends? && !r.isElse(end) && r.trouble(start, end).None?
            && forall foreign :: r.void(start, foreign)
  {
    var s := "pre~";
    assert s[..3] == "pre";
    assert TrimLeft(s, {'~'}) == s && TrimRight(s, {'~'}) == TrimRight(s[..3], {'~'}) == "pre";
    assert Trim("pre", {'~'}) == "pre";
  }

  function TildeForest(tokens: seq<Token>): Forest
    requires |tokens| == 4
  {
    Element(tokens[0], Element(tokens[1], Nil, tokens[2], Nil), tokens[3], Nil)
  }

  lemma TildeDerives(tokens: seq<Token>, v: string)
    requires TildeInside(tokens, v) && IsName(v)
    ensures Derives(TemplateRules(), TildeForest(tokens), None, false) && Yield(TildeForest(tokens)) == tokens
  {
    var r := TemplateRules();
    FitsTogether(tokens[0], tokens[3], v);
    PreFits(tokens[1], tokens[2]);
    var inner := Element(tokens[1], Nil, tokens[2], Nil);
    assert Derives(r, Nil, Some(tokens[1]), r.foreign(tokens[0]) || r.foreign(tokens[1])) && Derives(r, Nil, Some(tokens[0]), r.foreign(tokens[0]));
    assert Derives(r, inner, Some(tokens[0]), r.foreign(tokens[0]));
    assert Derives(r, Nil, None, false);
    assert Derives(r, Element(tokens[0], inner, tokens[3], Nil), None, false);
    assert Yield(inner) == [tokens[1], tokens[2]];
  }

  lemma TildeTags(tokens: seq<Token>, v: string, c: nat)
    requires TildeInside(tokens, v)
    ensures IsEnd(TemplateRules(), tokens, c) <==> c == 2 || c == 3
    ensures IsStart(TemplateRules(), tokens, c) <==> c == 0 || c == 1
  {
  }

  /** The inner element ends at token 2 or 3, the outer at the other. */
  lemma TildeLinks(tokens: seq<Token>, v: string, m: Machine)
    requires TildeInside(tokens, v) && IsName(v) && WellLinked(TemplateRules(), tokens, m)
    ensures 1 in m.endOf && m.endOf[1] == 2 && 3 in m.startOf && m.startOf[3] == 0
  {
    LinksAt(TemplateRules(), tokens, m, 0);
    LinksAt(TemplateRules(), tokens, m, 1);
    LinksAt(TemplateRules(), tokens, m, 3);
    forall c ensures (IsEnd(TemplateRules(), tokens, c) <==> c == 2 || c == 3) && (IsStart(TemplateRules(), tokens, c) <==> c == 0 || c == 1) {
      TildeTags(tokens, v, c);
    }
    NoTilde(v);
    assert Disjoint(m, 0, 1);
  }

  lemma TildeUnmet(tokens: seq<Token>, v: string, m: Machine)
    requires TildeInside(tokens, v) && IsName(v) && 1 in m.endOf && m.endOf[1] == 2 && 3 in m.startOf && m.startOf[3] == 0
    ensures Unmet(tokens, m, 3)
  {
    assert Holds(tokens, m, 1, 3);
  }

  /** For any name, as in "<p>{{#pre~}}{{/pre}}</p>": tokenized, accepted and not printed. */
  lemma TildeStops(v: string, r: Outcome)
    requires IsName(v) && IsOutcome(TildePage(v), ReaderOf(TildePage(v), Handlebars), r)
    ensures r.Whole?
    ensures var m := Rest(TemplateRules(), Fresh(), r.tokens, 0);
            m.Ok? && Around(r.tokens, m.value.startOf, m.value.endOf, |r.tokens|).None?
  {
    var text := TildePage(v);
    var reading := ReadingOf(text, Handlebars);
    var tokens := TildeCut(reading, text, ReaderOf(text, Handlebars), v);
    CutWhole(reading, text, Handlebars, tokens, r);
    TildeRefused(tokens, v);
  }

  lemma TildeRefused(tokens: seq<Token>, v: string)
    requires TildeInside(tokens, v) && IsName(v)
    ensures var r := Rest(TemplateRules(), Fresh(), tokens, 0);
            r.Ok? && Around(tokens, r.value.startOf, r.value.endOf, |tokens|).None?
  {
    TildeDerives(tokens, v);
    DerivedIsLinked(TildeForest(tokens), tokens);
    var m := Rest(TemplateRules(), Fresh(), tokens, 0).value;
    TildeLinks(tokens, v, m);
    TildeUnmet(tokens, v, m);
    PrintsIff(tokens, m);
    assert !Fine(tokens, m, 3);
  }
}
