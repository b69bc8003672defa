/** The scanners of the template tokenizer: each finds where the token starting at an offset ends. */
module Scanners {
  import opened Options

  /** `IndexError` is Python's own: an offset beyond the text, which nothing catches. */
  datatype Failure = TokenizationError(message: string) | TemplateParserError(message: string) | IndexError

  predicate LookingAt(text: string, i: nat, p: string) {
    i + |p| <= |text| && text[i..i + |p|] == p
  }

  /** Python's whitespace. */
  predicate IsSpace(c: char) {
    || '\t' <= c <= '\r' || c == ' ' || '\U{1c}' <= c <= '\U{1f}' || c == '\U{85}' || c == '\U{a0}' || c == '\U{1680}'
    || '\U{2000}' <= c <= '\U{200a}' || c == '\U{2028}' || c == '\U{2029}' || c == '\U{202f}' || c == '\U{205f}' || c == '\U{3000}'
  }

  function StripRight(s: string): string {
    if s != "" && IsSpace(s[|s| - 1]) then StripRight(s[..|s| - 1]) else s
  }

  function StripLeft(s: string): string {
    if s != "" && IsSpace(s[0]) then StripLeft(s[1..]) else s
  }

  /** Python's `strip()`. */
  function Strip(s: string): string {
    StripRight(StripLeft(s))
  }

  lemma {:induction false} StripRightIsPrefix(s: string)
    ensures StripRight(s) <= s
    ensures s != "" && !IsSpace(s[0]) ==> StripRight(s) != ""
  {
    if s != "" && IsSpace(s[|s| - 1]) {
      StripRightIsPrefix(s[..|s| - 1]);
    }
  }

  lemma {:induction false} StripLeftStartsClean(s: string)
    ensures StripLeft(s) != "" ==> !IsSpace(StripLeft(s)[0])
  {
    if s != "" && IsSpace(s[0]) {
      StripLeftStartsClean(s[1..]);
    }
  }

  /** A stripped run stands where the run began exactly when the run does not begin with whitespace. */
  lemma StrippedInPlaceIff(s: string)
    requires s != ""
    ensures Strip(s) != "" && Strip(s) <= s <==> !IsSpace(s[0])
  {
    StripRightIsPrefix(StripLeft(s));
    StripLeftStartsClean(s);
    if StripLeft(s) != "" {
      StripRightIsPrefix(s);
    }
  }

  predicate Lacks(text: string, from: nat, to: nat, c: char)
    requires to <= |text|
  {
    forall k :: from <= k < to ==> text[k] != c
  }

  /** From `from` on, the first `mark` ends at `end`, with no earlier character of its kind. */
  predicate FirstMark(text: string, from: nat, mark: string, end: nat)
    requires |mark| >= 1
  {
    from + |mark| <= end <= |text| && LookingAt(text, end - |mark|, mark) && Lacks(text, from, end - |mark|, mark[0])
  }

  predicate SpacesEnd(text: string, i: nat, end: nat) {
    i <= end <= |text| && (forall k :: i <= k < end ==> text[k] == ' ') && (end < |text| ==> text[end] != ' ')
  }

  method GetSpaces(text: string, i: nat) returns (end: nat)
    requires i <= |text|
    ensures SpacesEnd(text, i, end)
  {
    end := i;
    while end < |text| && text[end] == ' '
      invariant i <= end <= |text|
      invariant forall k :: i <= k < end ==> text[k] == ' '
    {
      end := end + 1;
    }
  }

  predicate CodeEnds(text: string, i: nat, end: nat) {
    i <= end <= |text| && Lacks(text, i, end, '<') && (end < |text| ==> text[end] == '<')
  }

  method GetCode(text: string, i: nat) returns (end: nat)
    requires i <= |text|
    ensures CodeEnds(text, i, end)
  {
    end := i;
    while end < |text| && text[end] != '<'
      invariant i <= end <= |text|
      invariant forall k :: i <= k < end ==> text[k] != '<'
    {
      end := end + 1;
    }
  }

  predicate Breaks(c: char) {
    c == '{' || c == '<'
  }

  /** The run of plain text at `i`, up to the next brace or angle bracket. */
  function TextRun(text: string, i: nat): string
    requires i <= |text|
    decreases |text| - i
  {
    if i == |text| || Breaks(text[i]) then "" else [text[i]] + TextRun(text, i + 1)
  }

  method GetText(text: string, i: nat) returns (s: string)
    requires i <= |text|
    ensures s == Strip(TextRun(text, i))
  {
    var run, k := "", i;
    while k < |text| && !Breaks(text[k])
      invariant i <= k <= |text|
      invariant run + TextRun(text, k) == TextRun(text, i)
    {
      run := run + [text[k]];
      k := k + 1;
    }
    assert run == TextRun(text, i);
    return Strip(run);
  }

  lemma {:induction false} RunIsPrefix(text: string, i: nat)
    requires i <= |text|
    ensures TextRun(text, i) <= text[i..]
    decreases |text| - i
  {
    if i < |text| && !Breaks(text[i]) {
      RunIsPrefix(text, i + 1);
    }
  }

  /** A text token stands at its offset and is not empty exactly when no whitespace stands there. */
  lemma TextInPlaceIff(text: string, i: nat)
    requires i < |text| && !Breaks(text[i])
    ensures var s := Strip(TextRun(text, i));
            s != "" && LookingAt(text, i, s) <==> !IsSpace(text[i])
  {
    var run := TextRun(text, i);
    RunIsPrefix(text, i);
    StrippedInPlaceIff(run);
    if !IsSpace(text[i]) {
      PrefixLooks(text, i, run, Strip(run));
    } else {
      StripStartsClean(run);
    }
  }

  lemma PrefixLooks(text: string, i: nat, run: string, s: string)
    requires i <= |text| && run <= text[i..] && s <= run
    ensures LookingAt(text, i, s)
  {
    assert text[i..i + |s|] == text[i..][..|s|];
  }

  lemma StripStartsClean(s: string)
    ensures Strip(s) != "" ==> !IsSpace(Strip(s)[0])
  {
    StripLeftStartsClean(s);
    StripRightIsPrefix(StripLeft(s));
  }

  /** A run of nothing but whitespace is stripped away: the tokenizer then stays at its offset for good. */
  lemma {:induction false} StrippedAwayIff(s: string)
    ensures Strip(s) == "" <==> forall k :: 0 <= k < |s| ==> IsSpace(s[k])
  {
    if s != "" {
      if IsSpace(s[0]) {
        StrippedAwayIff(s[1..]);
        assert forall k :: 0 < k < |s| ==> s[k] == s[1..][k - 1];
      } else {
        StripRightIsPrefix(s);
      }
    }
  }

  lemma MarkStarts(text: string, p: nat, mark: string)
    requires |mark| >= 1
    ensures LookingAt(text, p, mark) ==> text[p] == mark[0]
  {
    if LookingAt(text, p, mark) {
      assert text[p] == text[p..p + |mark|][0];
    }
  }

  /** A search that stopped at `at`, on the mark's first character or too near the end, looked at the only candidate. */
  lemma NoOtherMark(text: string, from: nat, mark: string, at: nat, end: nat)
    requires |mark| >= 1 && from <= at <= |text| && Lacks(text, from, at, mark[0]) && !LookingAt(text, at, mark)
    requires (at < |text| && text[at] == mark[0]) || at + |mark| >= |text|
    ensures !FirstMark(text, from, mark, end)
  {
    if end >= |mark| {
      MarkStarts(text, end - |mark|, mark);
    }
  }

  /** The first mark ends at one place. */
  lemma OneFirstMark(text: string, from: nat, mark: string, end: nat, other: nat)
    requires |mark| >= 1 && FirstMark(text, from, mark, end) && FirstMark(text, from, mark, other)
    ensures end == other
  {
    MarkStarts(text, end - |mark|, mark);
    MarkStarts(text, other - |mark|, mark);
  }

  predicate HandlebarsEnds(text: string, i: nat, end: nat) {
    FirstMark(text, i + 2, "}}", end)
  }

  method GetHandlebarsTag(text: string, i: nat) returns (r: Result<nat, Failure>)
    requires i + 3 <= |text| && text[i + 2] != '}'
    ensures r.Ok? ==> HandlebarsEnds(text, i, r.value)
    ensures r.Err? ==> r.error == TokenizationError("Tag missing \"}}\"") && forall end: nat :: !HandlebarsEnds(text, i, end)
  {
    var end := i + 2;
    while end < |text| - 2 && text[end] != '}'
      invariant i + 2 <= end < |text|
      invariant end == i + 2 || end <= |text| - 2
      invariant Lacks(text, i + 2, end, '}')
    {
      end := end + 1;
    }
    if text[end] != '}' || text[end + 1] != '}' {
      MarkStarts(text, end, "}}");
      forall e: nat ensures !HandlebarsEnds(text, i, e) {
        NoOtherMark(text, i + 2, "}}", end, e);
      }
      return Err(TokenizationError("Tag missing \"}}\""));
    }
    assert text[end..end + 2] == "}}";
    return Ok(end + 2);
  }

  predicate TripleEnds(text: string, i: nat, end: nat) {
    FirstMark(text, i + 3, "}}}", end) || FirstMark(text, i + 3, "}~}}", end)
  }

  method GetTripleStache(text: string, i: nat) returns (r: Result<nat, Failure>)
    requires i + 3 <= |text|
    ensures r.Ok? ==> TripleEnds(text, i, r.value)
    ensures r.Err? ==> r.error == TokenizationError("Tag missing \"}}}\"") && forall end: nat :: !TripleEnds(text, i, end)
  {
    var end := i + 3;
    while end < |text| - 3 && text[end] != '}'
      invariant i + 3 <= end <= |text|
      invariant Lacks(text, i + 3, end, '}')
    {
      end := end + 1;
    }
    if LookingAt(text, end, "}}}") {
      return Ok(end + 3);
    } else if LookingAt(text, end, "}~}}") {
      return Ok(end + 4);
    }
    forall e: nat ensures !TripleEnds(text, i, e) {
      NoOtherMark(text, i + 3, "}}}", end, e);
      NoOtherMark(text, i + 3, "}~}}", end, e);
    }
    return Err(TokenizationError("Tag missing \"}}}\""));
  }

  /** The search starts behind the opening mark, one further for a stripped tag. */
  predicate DjangoEnds(text: string, i: nat, stripped: bool, end: nat) {
    FirstMark(text, if stripped then i + 3 else i + 2, "%}", end)
  }

  /** Past the end of the text exactly when only its last character, or none, is a percent sign to look behind. */
  function DjangoFailure(text: string, from: nat): Failure {
    if from >= |text| || (Lacks(text, from, |text| - 1, '%') && text[|text| - 1] == '%') then IndexError
    else TokenizationError("Tag missing \"%}\"")
  }

  method GetDjangoTag(text: string, i: nat, stripped: bool) returns (r: Result<nat, Failure>)
    requires i + 3 <= |text|
    ensures r.Ok? ==> DjangoEnds(text, i, stripped, r.value)
    ensures r.Err? ==> r.error == DjangoFailure(text, if stripped then i + 3 else i + 2) && forall end: nat :: !DjangoEnds(text, i, stripped, end)
  {
    var from := if stripped then i + 3 else i + 2;
    var end := from;
    while end < |text| - 1 && text[end] != '%'
      invariant from <= end <= |text| && (end == from || end <= |text| - 1)
      invariant Lacks(text, from, end, '%')
    {
      end := end + 1;
    }
    if LookingAt(text, end, "%}") {
      MarkStarts(text, end, "%}");
      assert text[end + 1] == text[end..end + 2][1];
      return Ok(end + 2);
    }
    forall e: nat ensures !DjangoEnds(text, i, stripped, e) {
      NoOtherMark(text, from, "%}", end, e);
    }
    if end >= |text| || (text[end] == '%' && end + 1 >= |text|) {
      return Err(IndexError);
    }
    return Err(TokenizationError("Tag missing \"%}\""));
  }

  function Quotes(text: string, from: nat, to: nat): nat
    requires from <= to <= |text|
  {
    if from == to then 0 else Quotes(text, from, to - 1) + (if text[to - 1] == '"' then 1 else 0)
  }

  /** An HTML tag ends at a `>` outside quotes. */
  predicate EndsHtmlTag(text: string, i: nat, k: nat)
    requires i + 1 <= k < |text|
  {
    text[k] == '>' && Quotes(text, i + 1, k) % 2 == 0
  }

  predicate HtmlTagEnds(text: string, i: nat, end: nat) {
    i + 2 <= end <= |text| && EndsHtmlTag(text, i, end - 1) && forall k :: i + 1 <= k < end - 1 ==> !EndsHtmlTag(text, i, k)
  }

  function HtmlFailure(text: string, i: nat): Failure
    requires i < |text|
  {
    TokenizationError(if Quotes(text, i + 1, |text|) % 2 != 0 then "Unbalanced quotes" else "Tag missing \">\"")
  }

  method GetHtmlTag(text: string, i: nat) returns (r: Result<nat, Failure>)
    requires i < |text|
    ensures r.Ok? ==> HtmlTagEnds(text, i, r.value)
    ensures r.Err? ==> r.error == HtmlFailure(text, i) && forall k :: i + 1 <= k < |text| ==> !EndsHtmlTag(text, i, k)
  {
    var quotes, end := 0, i + 1;
    while end < |text| && (text[end] != '>' || (quotes % 2 != 0 && text[end] != '<'))
      invariant i + 1 <= end <= |text| && quotes == Quotes(text, i + 1, end)
      invariant forall k :: i + 1 <= k < end ==> !EndsHtmlTag(text, i, k)
    {
      if text[end] == '"' {
        quotes := quotes + 1;
      }
      end := end + 1;
    }
    if quotes % 2 != 0 {
      return Err(TokenizationError("Unbalanced quotes"));
    }
    if end == |text| || text[end] != '>' {
      return Err(TokenizationError("Tag missing \">\""));
    }
    return Ok(end + 1);
  }

  /** The closing mark ends just before `e`. */
  predicate ClosedAt(text: string, e: nat, close: string) {
    |close| <= e <= |text| && text[e - |close|..e] == close
  }

  predicate FirstClosed(text: string, from: nat, close: string, end: nat) {
    from <= end <= |text| && ClosedAt(text, end, close) && forall e :: from <= e < end ==> !ClosedAt(text, e, close)
  }

  /** Without an angle bracket to blame the search runs past the end of the text. */
  function UnclosedFailure(text: string, from: nat, message: string): Failure {
    if from <= |text| && Lacks(text, from, |text|, '<') then IndexError else TokenizationError(message)
  }

  /** The four scanners for comments and partials: from `skip` on, the first place behind a closing mark. */
  method GetClosed(text: string, i: nat, skip: nat, close: string, message: string) returns (r: Result<nat, Failure>)
    requires |close| <= skip
    ensures match r
            case Ok(end) => FirstClosed(text, i + skip, close, end)
            case Err(f) =>
              && (forall e :: i + skip <= e <= |text| ==> !ClosedAt(text, e, close))
              && f == UnclosedFailure(text, i + skip, message)
  {
    var end, unclosed := i + skip, 0;
    while end <= |text|
      invariant i + skip <= end
      invariant end > |text| ==> end == i + skip || unclosed != 0
      invariant unclosed == 0 || (i + skip <= unclosed < |text| && text[unclosed] == '<')
      invariant unclosed == 0 ==> forall k :: i + skip <= k < end && k < |text| ==> text[k] != '<'
      invariant forall e :: i + skip <= e < end && e <= |text| ==> !ClosedAt(text, e, close)
    {
      if ClosedAt(text, end, close) {
        return Ok(end);
      }
      if unclosed == 0 {
        if end == |text| {
          return Err(IndexError);
        }
        if text[end] == '<' {
          unclosed := end;
        }
      }
      end := end + 1;
    }
    return Err(TokenizationError(message));
  }

  /** A variable ends behind the first closing brace, and behind a second one that follows it. */
  predicate VarEndsAfter(text: string, i: nat, p: nat, end: nat) {
    && i + 2 <= p < |text| && text[p] == '}' && Lacks(text, i + 2, p, '}')
    && end == if p + 1 < |text| && text[p + 1] == '}' then p + 2 else p + 1
  }

  predicate VarEnds(text: string, i: nat, end: nat) {
    end >= 2 && (VarEndsAfter(text, i, end - 1, end) || VarEndsAfter(text, i, end - 2, end))
  }

  method GetTemplateVar(text: string, i: nat) returns (r: Result<nat, Failure>)
    ensures r.Ok? ==> VarEnds(text, i, r.value)
    ensures r.Err? ==> r.error == UnclosedFailure(text, i + 3, "Unclosed var") && forall k :: i + 2 <= k < |text| ==> text[k] != '}'
  {
    var end, unclosed := i + 3, 0;
    while end <= |text|
      invariant i + 3 <= end
      invariant end > |text| ==> end == i + 3 || unclosed != 0
      invariant unclosed == 0 || (i + 3 <= unclosed < |text| && text[unclosed] == '<')
      invariant unclosed == 0 ==> forall k :: i + 3 <= k < end && k < |text| ==> text[k] != '<'
      invariant forall k :: i + 2 <= k < end - 1 && k < |text| ==> text[k] != '}'
    {
      if text[end - 1] == '}' {
        assert Lacks(text, i + 2, end - 1, '}');
        if end < |text| && text[end] == '}' {
          end := end + 1;
        }
        return Ok(end);
      }
      if unclosed == 0 {
        if end == |text| {
          return Err(IndexError);
        }
        if text[end] == '<' {
          unclosed := end;
        }
      }
      end := end + 1;
    }
    return Err(TokenizationError("Unclosed var"));
  }
}
