/** From text to text: what the tokenizer cuts is what the pretty-printer asks for. */
module TemplateFormat {
  import opened Options
  import opened Tokens
  import opened Scanners
  import opened LineEnds
  import opened Tokenizer
  import opened Layout
  import opened PrettyPrint
  import TemplateGrammar
  import TemplateFaults
  import TagMatcher
  import TagLinks

  lemma LabelKinds(branch: Branch, s: string, afterNewline: bool)
    requires Label(branch, s, afterNewline).Ok?
    ensures Label(branch, s, afterNewline).value.0 == Newline ==> branch == NewlineAt
    ensures Label(branch, s, afterNewline).value.0 == Indent ==> branch == SpacesAt && afterNewline
  {
  }

  lemma MarkEnds(text: string, i: nat, mark: string)
    requires |mark| > 0 && LookingAt(text, i, mark)
    ensures text[i + |mark| - 1] == mark[|mark| - 1]
  {
    assert text[i + |mark| - 1] == text[i..i + |mark|][|mark| - 1];
  }

  lemma ClosedEnds(text: string, end: nat, close: string)
    requires |close| > 0 && ClosedAt(text, end, close)
    ensures text[end - 1] == close[|close| - 1]
  {
    MarkEnds(text, end - |close|, close);
  }

  lemma {:induction false} StripRightEndsSolid(s: string)
    ensures StripRight(s) == "" || !IsSpace(StripRight(s)[|StripRight(s)| - 1])
  {
    if s != "" && IsSpace(s[|s| - 1]) {
      StripRightEndsSolid(s[..|s| - 1]);
    }
  }

  lemma TripleEndsSolid(text: string, i: nat, end: nat)
    requires TripleEnds(text, i, end)
    ensures text[end - 1] == '}'
  {
    if FirstMark(text, i + 3, "}}}", end) {
      MarkEnds(text, end - 3, "}}}");
    } else {
      MarkEnds(text, end - 4, "}~}}");
    }
  }

  lemma ClosedEndsSolid(branch: Branch, text: string, i: nat, end: nat)
    requires branch in {HtmlCommentAt, HandlebarsCommentAt, DjangoCommentAt, PartialAt, PartialBlockAt} && TokenEnds(branch, text, i, end)
    ensures 0 < end <= |text| && (text[end - 1] == '>' || text[end - 1] == '}')
  {
    if branch == HtmlCommentAt {
      ClosedEnds(text, end, "-->");
    } else if branch == DjangoCommentAt {
      ClosedEnds(text, end, "#}");
    } else {
      ClosedEnds(text, end, "}}");
    }
  }

  lemma TagEndsSolid(branch: Branch, text: string, i: nat, end: nat)
    requires TokenEnds(branch, text, i, end) && 0 < end <= |text|
    requires branch in {HandlebarsElseAt, HandlebarsStartAt, HandlebarsEndAt, DjangoElseAt, DjangoEndAt, DjangoStartAt, JinjaEndAt, JinjaStartAt}
    ensures text[end - 1] == '}'
  {
    if branch in {HandlebarsElseAt, HandlebarsStartAt, HandlebarsEndAt} {
      MarkEnds(text, end - 2, "}}");
    } else {
      MarkEnds(text, end - 2, "%}");
    }
  }

  /** Only spaces, newlines and code end in white space. */
  lemma TokensEndSolid(branch: Branch, text: string, i: nat, end: nat)
    requires i < end <= |text| && TokenEnds(branch, text, i, end) && branch != NewlineAt && branch != SpacesAt && branch != TextAt
    ensures !IsSpace(text[end - 1])
  {
    match branch
    case HtmlCommentAt | HandlebarsCommentAt | DjangoCommentAt | PartialAt | PartialBlockAt => ClosedEndsSolid(branch, text, i, end);
    case TripleStacheAt => TripleEndsSolid(text, i, end);
    case HtmlStartAt | HtmlEndAt | VarAt =>
    case HandlebarsElseAt | HandlebarsStartAt | HandlebarsEndAt | DjangoElseAt | DjangoEndAt | DjangoStartAt | JinjaEndAt | JinjaStartAt =>
      TagEndsSolid(branch, text, i, end);
  }

  lemma {:induction false} NewlineIsIn(s: string)
    ensures Newlines(s) > 0 ==> '\n' in s
  {
    if s != "" {
      NewlineIsIn(s[..|s| - 1]);
    }
  }

  lemma {:induction false} TrimRightIsPrefix(s: string, cut: set<char>)
    ensures TrimRight(s, cut) <= s
  {
    if s != "" && s[|s| - 1] in cut {
      TrimRightIsPrefix(s[..|s| - 1], cut);
    }
  }

  lemma {:induction false} TrimLeftIsWithin(s: string, cut: set<char>, c: char)
    requires c in TrimLeft(s, cut)
    ensures c in s
  {
    if s != "" && s[0] in cut {
      TrimLeftIsWithin(s[1..], cut, c);
    }
  }

  lemma SeveralLines(s: string)
    requires LineSpan(s) != 1
    ensures '\n' in s
  {
    var left := TrimLeft(s, {'\n'});
    TrimRightIsPrefix(left, {'\n'});
    NewlineIsIn(TrimRight(left, {'\n'}));
    TrimLeftIsWithin(s, {'\n'}, '\n');
  }

  lemma PieceAt(text: string, at: nat, s: string)
    requires LookingAt(text, at, s)
    ensures forall k :: 0 <= k < |s| ==> s[k] == text[at + k]
  {
  }

  lemma LoneNewline(s: string)
    requires s == "\n"
    ensures LineSpan(s) == 1
  {
    assert TrimLeft(s, {'\n'}) == TrimLeft(s[1..], {'\n'}) == "";
  }

  lemma PieceEndsSolid(text: string, format: Format, at: nat, s: string)
    requires at < |text| && Spelled(text, ReaderOf(text, format), false, s, at) && LineSpan(s) != 1
    ensures '\n' in s && EndsSolid(s)
  {
    var branch := BranchAt(text, at, format);
    SeveralLines(s);
    if branch == TextAt {
      StripRightEndsSolid(StripLeft(TextRun(text, at)));
    } else if branch == SpacesAt || branch == NewlineAt {
      SpacesAreOneLine(branch, text, at, s);
    } else {
      PieceAt(text, at, s);
      TokensEndSolid(branch, text, at, at + |s|);
    }
  }

  lemma SpacesAreOneLine(branch: Branch, text: string, at: nat, s: string)
    requires at < |text| && LookingAt(text, at, s) && TokenEnds(branch, text, at, at + |s|)
    requires branch == SpacesAt || (branch == NewlineAt && text[at] == '\n')
    ensures LineSpan(s) == 1
  {
    PieceAt(text, at, s);
    if branch == SpacesAt {
      BlankIsOneLine(s);
    } else {
      LoneNewline(s);
    }
  }

  lemma BlankIsOneLine(s: string)
    requires forall k :: 0 <= k < |s| ==> s[k] == ' '
    ensures LineSpan(s) == 1
  {
    if LineSpan(s) != 1 {
      SeveralLines(s);
    }
  }

  lemma PieceOfSpace(branch: Branch, text: string, format: Format, at: nat, s: string)
    requires at < |text| && Spelled(text, ReaderOf(text, format), false, s, at) && branch == BranchAt(text, at, format)
    ensures branch == NewlineAt ==> s == "\n"
    ensures branch == SpacesAt ==> IsIndent(s) && LineSpan(s) == 1
  {
    if branch == NewlineAt || branch == SpacesAt {
      PieceAt(text, at, s);
      SpacesAreOneLine(branch, text, at, s);
    }
  }

  /** What its name says of the token `s` at `at`. */
  lemma NamedCutWell(text: string, format: Format, at: nat, s: string, afterNewline: bool)
    requires at < |text| && Spelled(text, ReaderOf(text, format), false, s, at)
    requires LabelAt(text, format, at, s, afterNewline).Ok?
    ensures var kind := LabelAt(text, format, at, s, afterNewline).value.0;
            && (kind == Newline ==> s == "\n")
            && (kind == Indent ==> IsIndent(s) && LineSpan(s) == 1 && afterNewline)
            && (LineSpan(s) != 1 ==> '\n' in s && EndsSolid(s))
  {
    LabelKinds(BranchAt(text, at, format), s, afterNewline);
    PieceOfSpace(BranchAt(text, at, format), text, format, at, s);
    if LineSpan(s) != 1 {
      PieceEndsSolid(text, format, at, s);
    }
  }

  lemma TokenIsCutWell(text: string, format: Format, tokens: seq<Token>, n: nat)
    requires n < |tokens| && ReadsAs(text, ReaderOf(text, format), Before(tokens, n), tokens[n], Offset(tokens, n))
    ensures CutWell(tokens, n)
  {
    if tokens[n].kind != Code {
      NamedCutWell(text, format, Offset(tokens, n), tokens[n].s, AfterNewline(Before(tokens, n)));
    }
  }

  /** The pretty-printer may be given whatever the tokenizer cuts. */
  lemma TokenizedIsWellCut(text: string, format: Format, tokens: seq<Token>)
    requires AllRead(text, ReaderOf(text, format), tokens)
    ensures WellCut(tokens)
  {
    forall n | 0 <= n < |tokens| ensures CutWell(tokens, n) {
      TokenIsCutWell(text, format, tokens, n);
    }
  }

  // ---------------------------------------------------------------- what a slip does to the text

  lemma {:induction false} StripLeftSplits(s: string) returns (lead: string)
    ensures s == lead + StripLeft(s) && AllSpace(lead) && (s != "" && IsSpace(s[0]) ==> lead != "")
  {
    lead := "";
    if s != "" && IsSpace(s[0]) {
      var rest := StripLeftSplits(s[1..]);
      lead := [s[0]] + rest;
      assert s == [s[0]] + s[1..];
    }
  }

  lemma {:induction false} StripRightSplits(s: string) returns (trail: string)
    ensures s == StripRight(s) + trail && AllSpace(trail)
  {
    trail := "";
    if s != "" && IsSpace(s[|s| - 1]) {
      var rest := StripRightSplits(s[..|s| - 1]);
      trail := rest + [s[|s| - 1]];
      assert s == s[..|s| - 1] + [s[|s| - 1]];
    }
  }

  lemma StripKeepsSolid(s: string) returns (lead: string)
    ensures Solid(Strip(s)) == Solid(s) && |lead| + |Strip(s)| <= |s| && s[|lead|..|lead| + |Strip(s)|] == Strip(s)
    ensures s != "" && IsSpace(s[0]) ==> lead != ""
  {
    lead := StripLeftSplits(s);
    var trail := StripRightSplits(StripLeft(s));
    assert s == lead + Strip(s) + trail;
    SolidJoin(lead + Strip(s), trail);
    SolidJoin(lead, Strip(s));
    SolidSpace(lead);
    SolidSpace(trail);
  }

  lemma {:induction false} SolidHas(s: string, k: nat)
    requires k < |s| && !IsSpace(s[k])
    ensures |Solid(s)| > 0
  {
    if k > 0 {
      SolidHas(s[1..], k - 1);
    }
  }

  /** A run that begins with white space has more solid characters than the stretch its stripped form takes up. */
  lemma SlipAddsSolid(run: string)
    requires run != "" && IsSpace(run[0]) && Strip(run) != ""
    ensures |Strip(run)| <= |run| && |Solid(Strip(run))| > |Solid(run[..|Strip(run)|])|
  {
    var lead := StripKeepsSolid(run);
    var s := Strip(run);
    assert run == run[..|s|] + run[|s|..];
    SolidJoin(run[..|s|], run[|s|..]);
    StripRightEndsSolid(StripLeft(run));
    var last := |lead| + |s| - 1;
    assert run[last] == run[|lead|..|lead| + |s|][|s| - 1];
    SolidHas(run[|s|..], last - |s|);
  }

  lemma CutAddsSolid(text: string, format: Format, tokens: seq<Token>, n: nat)
    requires n < |tokens| && ReadsAs(text, ReaderOf(text, format), Before(tokens, n), tokens[n], Offset(tokens, n))
    ensures var at, s := Offset(tokens, n), tokens[n].s;
            && at + |s| <= |text| && |Solid(s)| >= |Solid(text[at..at + |s|])|
            && (Slips(text, ReaderOf(text, format), tokens, n) ==> |Solid(s)| > |Solid(text[at..at + |s|])|)
  {
    ReaderPlain(text, format);
    InPlaceUnlessSlips(text, ReaderOf(text, format), tokens, n);
    ReadFits(text, ReaderOf(text, format), Before(tokens, n), tokens[n], Offset(tokens, n));
    if Slips(text, ReaderOf(text, format), tokens, n) {
      SlippedAddsSolid(text, Offset(tokens, n), tokens[n].s);
    }
  }

  lemma SlippedAddsSolid(text: string, at: nat, s: string)
    requires at < |text| && IsSpace(text[at]) && !Breaks(text[at]) && s != "" && s == Strip(TextRun(text, at))
    ensures at + |s| <= |text| && |Solid(s)| > |Solid(text[at..at + |s|])|
  {
    var run := TextRun(text, at);
    RunIsPrefix(text, at);
    SlipAddsSolid(run);
    assert text[at..at + |s|] == run[..|s|];
  }

  /** The tokens from where they were cut, with at least the solid characters that stand there, and more for the `bad` ones. */
  ghost predicate Adds(text: string, tokens: seq<Token>, bad: nat -> bool) {
    forall k: nat :: k < |tokens| ==> AddsAt(text, tokens, bad, k)
  }

  ghost predicate AddsAt(text: string, tokens: seq<Token>, bad: nat -> bool, k: nat)
    requires k < |tokens|
  {
    var at, s := Offset(tokens, k), tokens[k].s;
    && at + |s| <= |text| && |Solid(s)| >= |Solid(text[at..at + |s|])|
    && (bad(k) ==> |Solid(s)| > |Solid(text[at..at + |s|])|)
  }

  lemma {:induction false} SolidUpTo(text: string, tokens: seq<Token>, bad: nat -> bool, n: nat)
    requires Adds(text, tokens, bad) && n <= |tokens|
    ensures Offset(tokens, n) <= |text| && |Solid(Joined(tokens[..n]))| >= |Solid(text[..Offset(tokens, n)])|
    ensures (exists k: nat :: k < n && bad(k)) ==> |Solid(Joined(tokens[..n]))| > |Solid(text[..Offset(tokens, n)])|
  {
    if n > 0 {
      SolidUpTo(text, tokens, bad, n - 1);
      assert AddsAt(text, tokens, bad, n - 1);
      SolidGrows(text, tokens, n);
    }
  }

  lemma SolidGrows(text: string, tokens: seq<Token>, n: nat)
    requires 0 < n <= |tokens| && Offset(tokens, n - 1) + |tokens[n - 1].s| <= |text|
    ensures var at, end := Offset(tokens, n - 1), Offset(tokens, n);
            && end == at + |tokens[n - 1].s|
            && Solid(Joined(tokens[..n])) == Solid(Joined(tokens[..n - 1])) + Solid(tokens[n - 1].s)
            && Solid(text[..end]) == Solid(text[..at]) + Solid(text[at..end])
  {
    var at := Offset(tokens, n - 1);
    var end := at + |tokens[n - 1].s|;
    JoinedLast(tokens, n);
    SolidJoin(Joined(tokens[..n - 1]), tokens[n - 1].s);
    assert text[..end] == text[..at] + text[at..end];
    SolidJoin(text[..at], text[at..end]);
  }

  /** A text that slips does not even keep its solid characters: each slip repeats some. */
  lemma SolidKeptIff(text: string, format: Format, tokens: seq<Token>)
    requires AllRead(text, ReaderOf(text, format), tokens) && |Joined(tokens)| == |text|
    ensures Solid(Joined(tokens)) == Solid(text) <==> NoSlip(text, format, tokens)
    ensures Settled(Joined(tokens)) == Settled(text) <==> NoSlip(text, format, tokens)
  {
    var reader := ReaderOf(text, format);
    LosslessIff(text, format, tokens);
    if !NoSlip(text, format, tokens) {
      var bad := (k: nat) => k < |tokens| && Slips(text, reader, tokens, k);
      forall k: nat | k < |tokens| ensures AddsAt(text, tokens, bad, k) {
        CutAddsSolid(text, format, tokens, k);
      }
      var n :| 0 <= n < |tokens| && Slips(text, reader, tokens, n);
      assert bad(n);
      SolidUpTo(text, tokens, bad, |tokens|);
      assert tokens[..|tokens|] == tokens && text[..|text|] == text;
    }
    SettledKeepsSolid(Joined(tokens), Start);
    SettledKeepsSolid(text, Start);
  }

  ghost predicate NoSlip(text: string, format: Format, tokens: seq<Token>) {
    forall n :: 0 <= n < |tokens| ==> !Slips(text, ReaderOf(text, format), tokens, n)
  }

  // ---------------------------------------------------------------- all of it

  datatype Report =
    | Formatted(text: string) | NotTokenized(failure: Failure) | NeverTokenized
    | NotMatched(problem: TagMatcher.Problem) | NotPrinted(error: PrintError)

  lemma LinksOfAccepted(tokens: seq<Token>)
    requires TagMatcher.Rest(TagMatcher.TemplateRules(), TagMatcher.Fresh(), tokens, 0).Ok?
    ensures LinksFit(tokens, TagMatcher.Rest(TagMatcher.TemplateRules(), TagMatcher.Fresh(), tokens, 0).value.startOf)
  {
    TagLinks.AcceptedLinks(TagMatcher.TemplateRules(), tokens);
    LinkedFit(TagMatcher.TemplateRules(), tokens, TagMatcher.Rest(TagMatcher.TemplateRules(), TagMatcher.Fresh(), tokens, 0).value);
  }

  lemma LinkedFit(r: TagMatcher.Rules, tokens: seq<Token>, m: TagMatcher.Machine)
    requires TagLinks.WellLinked(r, tokens, m)
    ensures LinksFit(tokens, m.startOf)
  {
    forall j | j in m.startOf ensures m.startOf[j] < j < |tokens| {
      assert TagLinks.IsEnd(r, tokens, j);
    }
  }

  /** The links the matcher leaves on accepted tokens; none if it does not accept them. */
  function LinksOf(tokens: seq<Token>): TagMatcher.Machine {
    var r := TagMatcher.Rest(TagMatcher.TemplateRules(), TagMatcher.Fresh(), tokens, 0);
    if r.Ok? then r.value else TagMatcher.Fresh()
  }

  /** The printer stops: there is no token, or its second pass does. */
  predicate Stops(tokens: seq<Token>) {
    tokens == [] || Around(tokens, LinksOf(tokens).startOf, LinksOf(tokens).endOf, |tokens|).None?
  }

  method Printed(tokens: seq<Token>, startOf: map<nat, nat>, endOf: map<nat, nat>) returns (r: Report)
    requires WellCut(tokens) && LinksFit(tokens, startOf)
    ensures r.Formatted? || r.NotPrinted?
    ensures r.Formatted? ==> IsPrintOf(tokens, startOf, endOf, r.text)
    ensures r.Formatted? ==> Settled(r.text) == Settled(Joined(tokens)) && Solid(r.text) == Solid(Joined(tokens))
    ensures r.NotPrinted? <==> tokens == [] || Around(tokens, startOf, endOf, |tokens|).None?
  {
    var printer := new Printer(tokens, startOf, endOf);
    var printed, indents, pieces := printer.PrettyPrintHtml();
    if printed.Err? {
      assert printed.error.NoTokens? || printed.error.AssertionError?;
      return NotPrinted(printed.error);
    }
    return Formatted(printed.value);
  }

  /** Match the tags and print. */
  method Checked(tokens: seq<Token>) returns (r: Report)
    requires WellCut(tokens)
    ensures !r.NotTokenized? && !r.NeverTokenized?
    ensures r.Formatted? ==> IsPrintOf(tokens, LinksOf(tokens).startOf, LinksOf(tokens).endOf, r.text)
    ensures r.Formatted? ==> Settled(r.text) == Settled(Joined(tokens)) && Solid(r.text) == Solid(Joined(tokens))
    ensures r.NotMatched? <==> !TemplateGrammar.IsTemplate(tokens)
    ensures r.NotMatched? ==> (r.problem == TagMatcher.MissingEnd <==> TemplateFaults.Completable(tokens))
    ensures r.NotPrinted? <==> TemplateGrammar.IsTemplate(tokens) && Stops(tokens)
  {
    var checker := new TagMatcher.Checker();
    var matched := checker.Validate(tokens);
    TagMatcher.MatcherIsGrammar(tokens);
    TemplateFaults.MissingEndIffBrokenOff(tokens);
    if matched.Err? {
      return NotMatched(matched.error);
    }
    LinksOfAccepted(tokens);
    r := Printed(tokens, checker.startOf, checker.endOf);
  }

  /**
  Tokenize, match the tags, print.  Whatever comes out differs from what the tokens join to only in the white
  space at the two ends of lines; and from the text, exactly when no token slipped, as none does where all white
  space is spaces and newlines.
  */
  method Reformat(text: string, format: Format) returns (r: Report, ghost cut: Outcome)
    ensures IsOutcome(text, ReaderOf(text, format), cut)
    ensures r.NotTokenized? <==> cut.Failed?
    ensures r.NeverTokenized? <==> cut.NeverEnds?
    ensures r.NotMatched? <==> cut.Whole? && !TemplateGrammar.IsTemplate(cut.tokens)
    ensures r.NotPrinted? <==> cut.Whole? && TemplateGrammar.IsTemplate(cut.tokens) && Stops(cut.tokens)
    ensures r.Formatted? ==> cut.Whole? && IsPrintOf(cut.tokens, LinksOf(cut.tokens).startOf, LinksOf(cut.tokens).endOf, r.text)
    ensures r.Formatted? ==> Settled(r.text) == Settled(Joined(cut.tokens))
    ensures r.Formatted? ==> (Settled(r.text) == Settled(text) <==> NoSlip(text, format, cut.tokens))
    ensures r.Formatted? ==> (Solid(r.text) == Solid(text) <==> NoSlip(text, format, cut.tokens))
    ensures PlainSpace(text) ==> !r.NeverTokenized? && (r.Formatted? ==> Settled(r.text) == Settled(text) && Solid(r.text) == Solid(text))
  {
    var cursor := new Cursor(text, format);
    var tokenized := cursor.Tokenize();
    cut := tokenized;
    if PlainSpace(text) {
      PlainTextIsKept(text, format, cut);
    }
    match tokenized
    case Failed(_, failure) => r := NotTokenized(failure);
    case NeverEnds(_) => r := NeverTokenized;
    case Whole(tokens) =>
      TokenizedIsWellCut(text, format, tokens);
      SolidKeptIff(text, format, tokens);
      r := Checked(tokens);
  }
}
