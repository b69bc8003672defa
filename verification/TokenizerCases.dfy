/** The text determines the tokens; two texts on which the tokenizer does not give the text back. */
module TokenizerCases {
  import opened Options
  import opened Tokens
  import opened Scanners
  import opened Tokenizer

  // ---------------------------------------------------------------- one outcome

  lemma OneVarEnd(text: string, i: nat, end: nat, other: nat)
    requires VarEnds(text, i, end) && VarEnds(text, i, other)
    ensures end == other
  {
    var p := if VarEndsAfter(text, i, end - 1, end) then end - 1 else end - 2;
    var q := if VarEndsAfter(text, i, other - 1, other) then other - 1 else other - 2;
    assert VarEndsAfter(text, i, p, end) && VarEndsAfter(text, i, q, other);
  }

  lemma OneTripleEnd(text: string, i: nat, end: nat, other: nat)
    requires TripleEnds(text, i, end) && TripleEnds(text, i, other)
    ensures end == other
  {
    TripleStart(text, i, end);
    TripleStart(text, i, other);
  }

  /** Both closings start at the first brace, and differ in what follows it. */
  lemma TripleStart(text: string, i: nat, end: nat)
    requires TripleEnds(text, i, end)
    ensures var p := if FirstMark(text, i + 3, "}}}", end) then end - 3 else end - 4;
            && i + 3 <= p < p + 1 < |text| && Lacks(text, i + 3, p, '}') && text[p] == '}'
            && (FirstMark(text, i + 3, "}}}", end) <==> text[p + 1] == '}')
  {
    var p := if FirstMark(text, i + 3, "}}}", end) then end - 3 else end - 4;
    var mark := if FirstMark(text, i + 3, "}}}", end) then "}}}" else "}~}}";
    assert LookingAt(text, p, mark);
    assert text[p] == text[p..p + |mark|][0] && text[p + 1] == text[p..p + |mark|][1];
  }

  lemma OneEnd(branch: Branch, text: string, i: nat, end: nat, other: nat)
    requires TokenEnds(branch, text, i, end) && TokenEnds(branch, text, i, other)
    ensures end == other
  {
    match branch
    case HandlebarsElseAt | HandlebarsStartAt | HandlebarsEndAt => OneFirstMark(text, i + 2, "}}", end, other);
    case TripleStacheAt => OneTripleEnd(text, i, end, other);
    case DjangoElseAt | DjangoEndAt | DjangoStartAt | JinjaEndAt => OneFirstMark(text, i + 2, "%}", end, other);
    case JinjaStartAt => OneFirstMark(text, i + 3, "%}", end, other);
    case VarAt => OneVarEnd(text, i, end, other);
    case _ =>
  }

  /** What stands at an offset ends at one place. */
  ghost predicate Decisive(reader: Reader) {
    forall i: nat, end: nat, other: nat :: reader.ends(i, end) && reader.ends(i, other) ==> end == other
  }

  lemma ReaderDecisive(text: string, format: Format)
    ensures Decisive(ReaderOf(text, format))
  {
    forall i: nat, end: nat, other: nat | ReaderOf(text, format).ends(i, end) && ReaderOf(text, format).ends(i, other) ensures end == other {
      OneEnd(BranchAt(text, i, format), text, i, end, other);
    }
  }

  lemma SpelledUnique(text: string, reader: Reader, code: bool, s: string, t: string, at: nat)
    requires Decisive(reader) && at < |text| && Spelled(text, reader, code, s, at) && Spelled(text, reader, code, t, at)
    ensures s == t
  {
  }

  lemma ReadUnique(text: string, reader: Reader, before: Option<(Token, nat)>, a: Token, b: Token, at: nat)
    requires Decisive(reader) && ReadsAs(text, reader, before, a, at) && ReadsAs(text, reader, before, b, at)
    ensures a == b
  {
    SpelledUnique(text, reader, CodeNext(text, reader, before, at), a.s, b.s, at);
  }

  ghost predicate OneReading(reading: (Option<(Token, nat)>, Token, nat) -> bool) {
    forall before, s, t, at: nat :: reading(before, s, at) && reading(before, t, at) ==> s == t
  }

  predicate ReadingAt(reading: (Option<(Token, nat)>, Token, nat) -> bool, tokens: seq<Token>, n: nat)
    requires n < |tokens|
  {
    reading(Before(tokens, n), tokens[n], Offset(tokens, n))
  }

  ghost predicate Readings(reading: (Option<(Token, nat)>, Token, nat) -> bool, tokens: seq<Token>) {
    forall n: nat {:trigger ReadingAt(reading, tokens, n)} :: n < |tokens| ==> ReadingAt(reading, tokens, n)
  }

  lemma SameNext(reading: (Option<(Token, nat)>, Token, nat) -> bool, a: seq<Token>, b: seq<Token>, n: nat)
    requires OneReading(reading) && n < |a| && n < |b| && a[..n] == b[..n]
    requires ReadingAt(reading, a, n) && ReadingAt(reading, b, n)
    ensures a[..n + 1] == b[..n + 1]
  {
    SameBefore(a, b, n);
    assert a[..n + 1] == a[..n] + [a[n]] && b[..n + 1] == b[..n] + [b[n]];
  }

  lemma {:induction false} ReadAlike(reading: (Option<(Token, nat)>, Token, nat) -> bool, a: seq<Token>, b: seq<Token>, n: nat)
    requires OneReading(reading) && Readings(reading, a) && Readings(reading, b) && n <= |a| && n <= |b|
    ensures a[..n] == b[..n]
  {
    if n > 0 {
      ReadAlike(reading, a, b, n - 1);
      SameNext(reading, a, b, n - 1);
    }
  }

  lemma TokensAlike(text: string, reader: Reader, a: seq<Token>, b: seq<Token>, n: nat)
    requires Decisive(reader) && AllRead(text, reader, a) && AllRead(text, reader, b) && n <= |a| && n <= |b|
    ensures a[..n] == b[..n]
  {
    var reading := (before: Option<(Token, nat)>, t: Token, at: nat) => ReadsAs(text, reader, before, t, at);
    forall before, s, t, at: nat | reading(before, s, at) && reading(before, t, at) ensures s == t {
      ReadUnique(text, reader, before, s, t, at);
    }
    ReadAlike(reading, a, b, n);
  }

  lemma SameBefore(a: seq<Token>, b: seq<Token>, n: nat)
    requires n <= |a| && n <= |b| && a[..n] == b[..n]
    ensures Offset(a, n) == Offset(b, n) && Before(a, n) == Before(b, n)
  {
    if n > 0 {
      assert a[..n - 1] == a[..n][..n - 1] && b[..n - 1] == b[..n][..n - 1];
      assert a[n - 1] == a[..n][n - 1] && b[n - 1] == b[..n][n - 1];
    }
  }

  /** Where a token can be cut the tokenizer does not stay. */
  lemma NotStuck(text: string, reader: Reader, tokens: seq<Token>, t: Token)
    requires ReadsAs(text, reader, Before(tokens, |tokens|), t, |Joined(tokens)|)
    ensures !StuckAfter(text, reader, tokens)
  {
    StrippedAwayIff(TextRun(text, |Joined(tokens)|));
  }

  /** And it does not fail. */
  lemma NotFailed(text: string, reader: Reader, tokens: seq<Token>, t: Token, f: Failure)
    requires Decisive(reader) && ReadsAs(text, reader, Before(tokens, |tokens|), t, |Joined(tokens)|)
    ensures !FailsAfter(text, reader, tokens, f)
  {
    var at, before := |Joined(tokens)|, Before(tokens, |tokens|);
    if !CodeNext(text, reader, before, at) {
      NamedOnce(text, reader, before, t, at, f);
    }
  }

  lemma NamedOnce(text: string, reader: Reader, before: Option<(Token, nat)>, t: Token, at: nat, f: Failure)
    requires Decisive(reader) && ReadsAs(text, reader, before, t, at) && !CodeNext(text, reader, before, at)
    ensures reader.ends(at, at + |t.s|)
    ensures forall s :: Spelled(text, reader, false, s, at) ==> reader.name(at, s, AfterNewline(before)) != Err(f)
  {
    forall s | Spelled(text, reader, false, s, at) ensures reader.name(at, s, AfterNewline(before)) != Err(f) {
      SpelledUnique(text, reader, false, s, t.s, at);
    }
  }

  /** Nor does it fail where it stays. */
  lemma StuckIsNoFailure(text: string, format: Format, tokens: seq<Token>, f: Failure)
    requires StuckAfter(text, ReaderOf(text, format), tokens)
    ensures !FailsAfter(text, ReaderOf(text, format), tokens, f)
  {
    var at, reader := |Joined(tokens)|, ReaderOf(text, format);
    StrippedAwayIff(TextRun(text, at));
    assert reader.ends(at, at + |Strip(TextRun(text, at))|);
    assert forall s :: !Spelled(text, reader, false, s, at);
  }

  lemma NoShorter(text: string, reader: Reader, q: Outcome, r: Outcome)
    requires Decisive(reader) && IsOutcome(text, reader, q) && IsOutcome(text, reader, r)
    ensures |q.tokens| <= |r.tokens|
  {
    var n := |r.tokens|;
    if n < |q.tokens| {
      TokensAlike(text, reader, q.tokens, r.tokens, n);
      SameBefore(q.tokens, r.tokens, n);
      assert r.tokens[..n] == r.tokens;
      NotStuck(text, reader, r.tokens, q.tokens[n]);
      if r.Failed? {
        NotFailed(text, reader, r.tokens, q.tokens[n], r.failure);
      }
    }
  }

  lemma FailureUnique(text: string, reader: Reader, tokens: seq<Token>, f: Failure, g: Failure)
    requires Decisive(reader) && FailsAfter(text, reader, tokens, f) && FailsAfter(text, reader, tokens, g)
    ensures f == g
  {
    var at, before := |Joined(tokens)|, Before(tokens, |tokens|);
    if exists end: nat :: reader.ends(at, end) {
      NameFailsOnce(text, reader, before, at, f, g);
    } else {
      assert forall s :: !Spelled(text, reader, false, s, at);
    }
  }

  lemma NameFailsOnce(text: string, reader: Reader, before: Option<(Token, nat)>, at: nat, f: Failure, g: Failure)
    requires Decisive(reader) && at < |text|
    requires exists s :: Spelled(text, reader, false, s, at) && reader.name(at, s, AfterNewline(before)) == Err(f)
    requires exists s :: Spelled(text, reader, false, s, at) && reader.name(at, s, AfterNewline(before)) == Err(g)
    ensures f == g
  {
    var s :| Spelled(text, reader, false, s, at) && reader.name(at, s, AfterNewline(before)) == Err(f);
    var t :| Spelled(text, reader, false, t, at) && reader.name(at, t, AfterNewline(before)) == Err(g);
    SpelledUnique(text, reader, false, s, t, at);
  }

  /** A text has one outcome. */
  lemma OutcomeUnique(text: string, format: Format, q: Outcome, r: Outcome)
    requires IsOutcome(text, ReaderOf(text, format), q) && IsOutcome(text, ReaderOf(text, format), r)
    ensures q == r
  {
    var reader := ReaderOf(text, format);
    ReaderDecisive(text, format);
    NoShorter(text, reader, q, r);
    NoShorter(text, reader, r, q);
    TokensAlike(text, reader, q.tokens, r.tokens, |q.tokens|);
    assert q.tokens[..|q.tokens|] == q.tokens && r.tokens[..|r.tokens|] == r.tokens;
    if q.Failed? && r.NeverEnds? {
      StuckIsNoFailure(text, format, r.tokens, q.failure);
    } else if q.NeverEnds? && r.Failed? {
      StuckIsNoFailure(text, format, q.tokens, r.failure);
    } else if q.Failed? && r.Failed? {
      FailureUnique(text, reader, q.tokens, q.failure, r.failure);
    }
  }

  lemma OnlyOutcome(text: string, format: Format, tokens: seq<Token>, r: Outcome)
    requires AllRead(text, ReaderOf(text, format), tokens) && |Joined(tokens)| == |text| && IsOutcome(text, ReaderOf(text, format), r)
    ensures r == Whole(tokens)
  {
    OutcomeUnique(text, format, Whole(tokens), r);
  }

  // ---------------------------------------------------------------- a text that is not given back

  lemma {:induction false} OneLine(text: string, i: nat)
    requires i <= |text| && '\n' !in text
    ensures LineAt(text, i) == 1 && ColumnAt(text, i) == i + 1
  {
    if i > 0 {
      OneLine(text, i - 1);
      assert text[..i][..i - 1] == text[..i - 1];
    }
  }

  lemma {:induction false} NoNewlines(s: string)
    requires '\n' !in s
    ensures Newlines(s) == 0
  {
    if s != "" {
      NoNewlines(s[..|s| - 1]);
    }
  }

  lemma OneLineSpan(s: string)
    requires '\n' !in s
    ensures LineSpan(s) == 1
  {
    NoNewlines(s);
    assert s != "" ==> s[0] in s && s[|s| - 1] in s;
  }

  lemma RunRead(text: string, format: Format, before: Option<(Token, nat)>, at: nat)
    requires '\n' !in text && TextStands(text, format, at) && Strip(TextRun(text, at)) != "" && '\n' !in Strip(TextRun(text, at))
    requires !AfterCodeTag(ReaderOf(text, format), before)
    ensures ReadsAs(text, ReaderOf(text, format), before, Token(Text, Strip(TextRun(text, at)), "", 1, at + 1, 1), at)
    ensures !ReaderOf(text, format).opens(at, Strip(TextRun(text, at)))
  {
    OneLine(text, at);
    OneLineSpan(Strip(TextRun(text, at)));
    StripShortens(text, at);
    assert Strip("") == "";
  }

  /** A word: no white space, and nothing that ends plain text. */
  ghost predicate IsWord(w: string) {
    w != "" && forall k :: 0 <= k < |w| ==> !IsSpace(w[k]) && !Breaks(w[k])
  }

  lemma {:induction false} RunToEnd(text: string, i: nat)
    requires i <= |text| && forall k :: 0 <= k < |text| ==> !Breaks(text[k])
    ensures TextRun(text, i) == text[i..]
    decreases |text| - i
  {
    if i < |text| {
      RunToEnd(text, i + 1);
    }
  }

  /** White space that is neither a space nor a newline counts as plain text. */
  predicate OddSpace(c: char) {
    IsSpace(c) && c != ' ' && c != '\n'
  }

  lemma WordStripped(s: string)
    requires s != "" && !IsSpace(s[0]) && !IsSpace(s[|s| - 1])
    ensures Strip(s) == s
  {
    assert StripLeft(s) == s;
  }

  lemma WordRuns(c: char, w: string)
    requires OddSpace(c) && IsWord(w)
    ensures Strip(TextRun([c] + w, 0)) == w && Strip(TextRun([c] + w, |w|)) == w[|w| - 1..]
  {
    var text := [c] + w;
    RunToEnd(text, 0);
    RunToEnd(text, |w|);
    assert text[0..] == text && text[1..] == w && text[|w|..] == w[|w| - 1..];
    assert StripLeft(text) == StripLeft(w) == w;
    WordStripped(w);
    WordStripped(w[|w| - 1..]);
  }

  /** Tokens of the word behind odd white space: the word, then its last letter once more. */
  function WordTokens(w: string): seq<Token>
    requires w != ""
  {
    [] + [Token(Text, w, "", 1, 1, 1)] + [Token(Text, w[|w| - 1..], "", 1, |w| + 1, 1)]
  }

  lemma WordStands(c: char, w: string, format: Format)
    requires OddSpace(c) && IsWord(w)
    ensures '\n' !in [c] + w && TextStands([c] + w, format, 0) && TextStands([c] + w, format, |w|)
  {
    assert forall k :: 0 <= k < |w| ==> w[k] != '\n';
  }

  lemma WordRead(c: char, w: string, format: Format)
    requires OddSpace(c) && IsWord(w)
    ensures AllRead([c] + w, ReaderOf([c] + w, format), WordTokens(w))
  {
    var text, reader := [c] + w, ReaderOf([c] + w, format);
    var first, second := Token(Text, w, "", 1, 1, 1), Token(Text, w[|w| - 1..], "", 1, |w| + 1, 1);
    WordRuns(c, w);
    WordStands(c, w, format);
    assert '\n' !in w;
    RunRead(text, format, None, 0);
    RunRead(text, format, Some((first, 0)), |w|);
    TwoRead(text, reader, first, second);
  }

  lemma TwoRead(text: string, reader: Reader, a: Token, b: Token)
    requires ReadsAs(text, reader, None, a, 0) && ReadsAs(text, reader, Some((a, 0)), b, |a.s|)
    ensures AllRead(text, reader, [] + [a] + [b])
  {
    OneMoreToken(text, reader, [], a);
    OffsetAtEnd([], a);
    OneMoreToken(text, reader, [] + [a], b);
  }

  /** A tab before a word: the tab is lost and the last letter comes twice, whatever the format. */
  lemma LosesItsPlace(c: char, w: string, format: Format, r: Outcome)
    requires OddSpace(c) && IsWord(w) && IsOutcome([c] + w, ReaderOf([c] + w, format), r)
    ensures r == Whole(WordTokens(w)) && Joined(r.tokens) == w + w[|w| - 1..] != [c] + w
  {
    var first, second := Token(Text, w, "", 1, 1, 1), Token(Text, w[|w| - 1..], "", 1, |w| + 1, 1);
    OffsetAtEnd([], first);
    JoinedOne([], first);
    JoinedOne([] + [first], second);
    WordRead(c, w, format);
    OnlyOutcome([c] + w, format, WordTokens(w), r);
    assert (w + w[|w| - 1..])[0] == w[0] && ([c] + w)[0] == c;
  }

  lemma JoinedOne(tokens: seq<Token>, t: Token)
    ensures Joined(tokens + [t]) == Joined(tokens) + t.s
  {
    assert (tokens + [t])[..|tokens|] == tokens;
  }

  /** On a tab alone the tokenizer never ends. */
  lemma TabNeverEnds(format: Format, r: Outcome)
    requires IsOutcome("\t", ReaderOf("\t", format), r)
    ensures r == NeverEnds([])
  {
    assert TextRun("\t", 0) == ['\t'] + TextRun("\t", 1) == "\t";
    assert StuckAfter("\t", ReaderOf("\t", format), []);
    OutcomeUnique("\t", format, NeverEnds([]), r);
  }
}
