/** What the kind and the tag of a token say of its text: the marks it opens and closes with, and what lies between. */
module Spelling {
  import opened Options
  import opened Tokens
  import opened Scanners
  import opened Tokenizer

  // ---------------------------------------------------------------- words

  predicate NoSpace(w: string) {
    forall k :: 0 <= k < |w| ==> !IsSpace(w[k])
  }

  /** `w` is the first word of `s`, and begins at `i`. */
  predicate WordFrom(s: string, w: string, i: nat) {
    && i + |w| <= |s| && s[i..i + |w|] == w && w != "" && NoSpace(w)
    && (forall k :: 0 <= k < i ==> IsSpace(s[k]))
    && (i + |w| < |s| ==> IsSpace(s[i + |w|]))
  }

  ghost predicate IsFirstWord(s: string, w: string) {
    exists i: nat :: WordFrom(s, w, i)
  }

  lemma {:induction false} WordLengthIs(s: string)
    ensures NoSpace(s[..WordLength(s)]) && (WordLength(s) < |s| ==> IsSpace(s[WordLength(s)]))
    ensures s != "" && !IsSpace(s[0]) ==> WordLength(s) > 0
  {
    if s != "" && !IsSpace(s[0]) {
      WordLengthIs(s[1..]);
      var n := WordLength(s[1..]);
      forall k | 0 <= k < n + 1 ensures !IsSpace(s[k]) {
        if k > 0 {
          assert s[k] == s[1..][..n][k - 1];
        }
      }
    }
  }

  lemma {:induction false} StripLeftFrom(s: string) returns (i: nat)
    ensures i <= |s| && StripLeft(s) == s[i..] && (forall k :: 0 <= k < i ==> IsSpace(s[k])) && (i < |s| ==> !IsSpace(s[i]))
  {
    if s != "" && IsSpace(s[0]) {
      var j := StripLeftFrom(s[1..]);
      i := j + 1;
      assert s[1..][j..] == s[i..];
      assert forall k :: 1 <= k < i ==> s[k] == s[1..][k - 1];
    } else {
      i := 0;
      assert s[0..] == s;
    }
  }

  lemma FirstWordIs(s: string, w: string)
    requires FirstWord(s) == Some(w)
    ensures IsFirstWord(s, w)
  {
    var i := StripLeftFrom(s);
    var t := s[i..];
    WordLengthIs(t);
    assert w == t[..WordLength(t)] == s[i..i + |w|];
    assert i + |w| < |s| ==> s[i + |w|] == t[|w|];
    assert WordFrom(s, w, i);
  }

  lemma {:induction false} StripRightKeeps(s: string)
    requires s == "" || !IsSpace(s[|s| - 1])
    ensures StripRight(s) == s
  {
  }

  lemma WordIsStripped(w: string)
    requires NoSpace(w)
    ensures Strip(w) == w
  {
    StripRightKeeps(w);
  }

  // ---------------------------------------------------------------- frames

  /** The text stands between the two marks, and the tag is what lies between them, stripped. */
  ghost predicate FramedBy(s: string, open: string, close: string, tag: string) {
    exists inner :: s == open + inner + close && tag == Strip(inner)
  }

  predicate Between(s: string, open: string, close: string) {
    |open| + |close| <= |s| && open <= s && EndsWith(s, close)
  }

  lemma Frame(s: string, open: string, close: string)
    requires Between(s, open, close)
    ensures s == open + Inner(s, |open|, |close|) + close
  {
    assert s == s[..|open|] + s[|open|..|s| - |close|] + s[|s| - |close|..];
  }

  lemma FrameTag(s: string, open: string, close: string, tag: string)
    requires Between(s, open, close) && tag == Strip(Inner(s, |open|, |close|))
    ensures FramedBy(s, open, close, tag)
  {
    Frame(s, open, close);
  }

  /** The token text from `i` to `end` opens with what stands at `i`, and closes with what stands before `end`. */
  lemma Opens(text: string, i: nat, end: nat, mark: string)
    requires LookingAt(text, i, mark) && i + |mark| <= end <= |text|
    ensures mark <= text[i..end]
  {
    assert text[i..end][..|mark|] == text[i..i + |mark|];
  }

  lemma Closes(text: string, i: nat, end: nat, mark: string)
    requires ClosedAt(text, end, mark) && i + |mark| <= end <= |text|
    ensures EndsWith(text[i..end], mark)
  {
    var s := text[i..end];
    assert s[|s| - |mark|..] == text[end - |mark|..end];
  }

  lemma StandsBetween(text: string, i: nat, end: nat, open: string, close: string)
    requires LookingAt(text, i, open) && ClosedAt(text, end, close) && i + |open| + |close| <= end <= |text|
    ensures Between(text[i..end], open, close)
  {
    Opens(text, i, end, open);
    Closes(text, i, end, close);
  }

  /** A mark without the closing character lies before the first closing character behind it. */
  lemma MarkBefore(text: string, i: nat, mark: string, c: char, at: nat)
    requires LookingAt(text, i, mark) && i + 2 <= at < |text| && text[at] == c
    requires forall k :: 2 <= k < |mark| ==> mark[k] != c
    ensures i + |mark| <= at
  {
    forall k | 0 <= k < |mark| ensures mark[k] == text[i + k] {
      assert mark[k] == text[i..i + |mark|][k];
    }
  }

  lemma TagBetween(text: string, i: nat, end: nat, open: string, from: nat, close: string)
    requires LookingAt(text, i, open) && i + 2 <= from && |close| >= 1 && FirstMark(text, from, close, end)
    requires forall k :: 2 <= k < |open| ==> open[k] != close[0]
    ensures i <= end <= |text| && Between(text[i..end], open, close)
  {
    var at := end - |close|;
    assert text[at] == text[at..at + |close|][0];
    MarkBefore(text, i, open, close[0], at);
    assert text[end - |close|..end] == close;
    StandsBetween(text, i, end, open, close);
  }

  // ---------------------------------------------------------------- spelling

  predicate OpensWith(s: string, marks: set<string>) {
    exists m | m in marks :: m <= s
  }

  const BLOCK_MARKS: set<string> := {"{{#", "{{^", "{{~#"}
  const END_MARKS: set<string> := {"{{/", "{{~/"}
  const ELSE_MARKS: set<string> := {"{% else", "{% elif", "{%- else", "{%- elif"}

  /** The kind and the tag of a token, held against its text. */
  ghost predicate IsSpelled(kind: Kind, s: string, tag: string) {
    match kind
    case Code => tag == ""
    case Text => tag == ""
    case Newline => s == "\n" && tag == "newline"
    case Indent => tag == "" && forall k :: 0 <= k < |s| ==> s[k] == ' '
    case Whitespace => tag == "" && forall k :: 0 <= k < |s| ==> s[k] == ' '
    case HtmlComment => FramedBy(s, "<!--", "-->", tag)
    case HandlebarsComment => FramedBy(s, "{{!", "}}", tag)
    case DjangoComment => FramedBy(s, "{#", "#}", tag)
    case HtmlEnd => FramedBy(s, "</", ">", tag)
    case HtmlStart => HtmlTag(s, tag, ">") && !EndsWith(s, "/>") && !IsDoctype(tag)
    case HtmlSingleton => HtmlTag(s, tag, "/>") && !IsDoctype(tag)
    case HtmlDoctype => IsDoctype(tag) && HtmlTag(s, tag, if EndsWith(s, "/>") then "/>" else ">")
    case HandlebarsElse => Between(s, "{{else", "}}") && tag == "else"
    case HandlebarsStart => OpensWith(s, BLOCK_MARKS) && EndsWith(s, "}}") && exists w :: IsFirstWord(Inner(s, 3, 2), w) && tag == Strip(DropStar(Trim(w, {'#'})))
    case HandlebarsEnd => OpensWith(s, END_MARKS) && EndsWith(s, "}}") && tag == Strip(Trim(Inner(s, 3, 2), {'/', '#', '~'}))
    case HandlebarsPartial => Between(s, "{{>", "}}") && if |s| < 11 then tag == "" else FramedBy(s, s[..9], "}}", tag)
    case HandlebarsPartialBlock => Between(s, "{{#>", "}}") && IsFirstWord(Inner(s, 5, 2), tag)
    case HandlebarsTripleStache =>
      (FramedBy(s, "{{{", "}}}", tag) || FramedBy(s, "{{~{", "}}}", tag) || FramedBy(s, "{{{", "}~}}", tag) || FramedBy(s, "{{~{", "}~}}", tag)) && EndsWith(tag, "_html")
    case DjangoElse => OpensWith(s, ELSE_MARKS) && EndsWith(s, "%}") && tag == "else"
    case DjangoEnd => Between(s, "{% end", "%}") && if |s| < 9 then tag == "" else FramedBy(s, "{% end", s[|s| - 3..], tag)
    case JinjaStrippedEnd => Between(s, "{%- end", "%}") && if |s| < 10 then tag == "" else FramedBy(s, "{%- end", s[|s| - 3..], tag)
    case DjangoStart => Between(s, "{% ", "%}") && IsFirstWord(Inner(s, 3, 2), tag)
    case JinjaStrippedStart => Between(s, "{% ", "%}") && s[|s| - 3] == '-' && IsFirstWord(Inner(s, 3, 2), tag)
    case JinjaStrippedType2Start => Between(s, "{%-", "%}") && IsFirstWord(Inner(s, 3, 3), tag)
    case TemplateVar => s != "" && s[0] == '{' && s[|s| - 1] == '}' && tag == "var"
  }

  predicate IsDoctype(tag: string) {
    tag == "!DOCTYPE" || tag == "!doctype"
  }

  /** The tag is the first word between the angle brackets. */
  ghost predicate HtmlTag(s: string, tag: string, close: string) {
    s != "" && s[0] == '<' && !("</" <= s) && !("<!--" <= s) && EndsWith(s, close) && IsFirstWord(Inner(s, 1, |close|), tag)
  }

  lemma HtmlSpelled(text: string, i: nat, end: nat, kind: Kind, tag: string)
    requires i < |text| && text[i] == '<' && !LookingAt(text, i, "</") && !LookingAt(text, i, "<!--") && HtmlTagEnds(text, i, end)
    requires HtmlLabel(text[i..end]) == Ok((kind, tag))
    ensures NoSpace(tag) && IsSpelled(kind, text[i..end], tag)
  {
    var s := text[i..end];
    assert s[0] == '<' && s[|s| - 1] == '>' && EndsWith(s, ">");
    assert s[..2] == text[i..i + 2];
    assert |s| >= 4 ==> s[..4] == text[i..i + 4];
    FirstWordIs(Inner(s, 1, if EndsWith(s, "/>") then 2 else 1), tag);
  }

  lemma EndTagSpelled(text: string, i: nat, end: nat)
    requires LookingAt(text, i, "</") && HtmlTagEnds(text, i, end)
    ensures FramedBy(text[i..end], "</", ">", Strip(Inner(text[i..end], 2, 1)))
  {
    assert text[i + 1] == text[i..i + 2][1] == '/';
    assert text[end - 1] == '>';
    StandsBetween(text, i, end, "</", ">");
    FrameTag(text[i..end], "</", ">", Strip(Inner(text[i..end], 2, 1)));
  }

  lemma BlockSpelled(text: string, i: nat, end: nat, mark: string, marks: set<string>)
    requires mark in marks && LookingAt(text, i, mark) && HandlebarsEnds(text, i, end) && forall k :: 2 <= k < |mark| ==> mark[k] != '}'
    ensures i <= end <= |text| && OpensWith(text[i..end], marks) && EndsWith(text[i..end], "}}")
  {
    TagBetween(text, i, end, mark, i + 2, "}}");
  }

  lemma HandlebarsStartSpelled(text: string, i: nat, end: nat, tag: string)
    requires LookingAt(text, i, "{{#") || LookingAt(text, i, "{{^") || LookingAt(text, i, "{{~#")
    requires HandlebarsEnds(text, i, end) && StartLabel(FirstWord(Inner(text[i..end], 3, 2))) == Ok((HandlebarsStart, tag))
    ensures IsSpelled(HandlebarsStart, text[i..end], Strip(tag))
  {
    if LookingAt(text, i, "{{#") {
      BlockSpelled(text, i, end, "{{#", BLOCK_MARKS);
    } else if LookingAt(text, i, "{{^") {
      BlockSpelled(text, i, end, "{{^", BLOCK_MARKS);
    } else {
      BlockSpelled(text, i, end, "{{~#", BLOCK_MARKS);
    }
    FirstWordIs(Inner(text[i..end], 3, 2), FirstWord(Inner(text[i..end], 3, 2)).value);
  }

  lemma HandlebarsEndSpelled(text: string, i: nat, end: nat)
    requires (LookingAt(text, i, "{{/") || LookingAt(text, i, "{{~/")) && HandlebarsEnds(text, i, end)
    ensures IsSpelled(HandlebarsEnd, text[i..end], Strip(Trim(Inner(text[i..end], 3, 2), {'/', '#', '~'})))
  {
    if LookingAt(text, i, "{{/") {
      BlockSpelled(text, i, end, "{{/", END_MARKS);
    } else {
      BlockSpelled(text, i, end, "{{~/", END_MARKS);
    }
  }

  lemma DjangoElseSpelled(text: string, i: nat, end: nat)
    requires LookingAt(text, i, "{% else") || LookingAt(text, i, "{% elif") || LookingAt(text, i, "{%- else") || LookingAt(text, i, "{%- elif")
    requires DjangoEnds(text, i, false, end)
    ensures i <= end <= |text| && OpensWith(text[i..end], ELSE_MARKS) && EndsWith(text[i..end], "%}")
  {
    var mark := if LookingAt(text, i, "{% else") then "{% else" else if LookingAt(text, i, "{% elif") then "{% elif"
                else if LookingAt(text, i, "{%- else") then "{%- else" else "{%- elif";
    TagBetween(text, i, end, mark, i + 2, "%}");
    assert mark in ELSE_MARKS;
  }

  lemma DjangoEndSpelled(text: string, i: nat, end: nat, open: string, tag: string)
    requires (open == "{% end" || open == "{%- end") && LookingAt(text, i, open) && DjangoEnds(text, i, false, end)
    requires tag == Strip(Inner(text[i..end], |open|, 3))
    ensures i <= end <= |text| && Between(text[i..end], open, "%}")
    ensures var s := text[i..end]; if |s| < |open| + 3 then tag == "" else FramedBy(s, open, s[|s| - 3..], tag)
  {
    TagBetween(text, i, end, open, i + 2, "%}");
    var s := text[i..end];
    if |s| >= |open| + 3 {
      FrameTag(s, open, s[|s| - 3..], tag);
    }
  }

  lemma TripleSpelled(text: string, i: nat, end: nat, tag: string)
    requires (LookingAt(text, i, "{{{") || LookingAt(text, i, "{{~{")) && TripleEnds(text, i, end)
    requires TripleLabel(text[i..end]) == Ok((HandlebarsTripleStache, tag))
    ensures IsSpelled(HandlebarsTripleStache, text[i..end], tag)
  {
    var open := if LookingAt(text, i, "{{~{") then "{{~{" else "{{{";
    var close := if FirstMark(text, i + 3, "}}}", end) then "}}}" else "}~}}";
    TagBetween(text, i, end, open, i + 3, close);
    TripleFramed(text[i..end], open, close, tag);
  }

  lemma TripleFramed(s: string, open: string, close: string, tag: string)
    requires (open == "{{{" || open == "{{~{") && (close == "}}}" || close == "}~}}") && Between(s, open, close)
    requires TripleLabel(s) == Ok((HandlebarsTripleStache, tag))
    ensures IsSpelled(HandlebarsTripleStache, s, tag)
  {
    TripleMarks(s, open, close);
    assert |open| == (if "{{~{" <= s then 4 else 3) && |close| == (if EndsWith(s, "}~}}") then 4 else 3);
    FrameTag(s, open, close, tag);
  }

  lemma TripleMarks(s: string, open: string, close: string)
    requires (open == "{{{" || open == "{{~{") && (close == "}}}" || close == "}~}}") && Between(s, open, close)
    ensures ("{{~{" <= s <==> open == "{{~{") && (EndsWith(s, "}~}}") <==> close == "}~}}")
  {
    assert s[..|open|] == open && s[|s| - |close|..] == close;
    assert s[2] == open[2];
    assert s[|s| - 3] == close[|close| - 3];
    if "{{~{" <= s {
      assert s[2] == "{{~{"[2];
    }
    if EndsWith(s, "}~}}") {
      assert s[|s| - 3] == s[|s| - 4..][1];
    }
  }

  lemma VarSpelled(text: string, i: nat, end: nat)
    requires i < |text| && text[i] == '{' && VarEnds(text, i, end)
    ensures i <= end <= |text| && IsSpelled(TemplateVar, text[i..end], "var")
  {
    var s := text[i..end];
    assert s[0] == text[i] && s[|s| - 1] == text[end - 1];
  }

  // ---------------------------------------------------------------- every token

  /** What the tests of the tokenizer have seen. */
  lemma BranchMarks(text: string, i: nat, format: Format)
    requires i < |text|
    ensures var b := BranchAt(text, i, format);
            && (b == HtmlCommentAt ==> LookingAt(text, i, "<!--"))
            && (b == HtmlEndAt ==> LookingAt(text, i, "</"))
            && (b == HtmlStartAt ==> text[i] == '<' && !LookingAt(text, i, "</") && !LookingAt(text, i, "<!--"))
            && (b == HandlebarsCommentAt ==> LookingAt(text, i, "{{!"))
            && (b == DjangoCommentAt ==> LookingAt(text, i, "{#"))
            && (b == PartialAt ==> LookingAt(text, i, "{{>"))
            && (b == PartialBlockAt ==> LookingAt(text, i, "{{#>"))
            && (b == HandlebarsElseAt ==> LookingAt(text, i, "{{else"))
            && (b == TripleStacheAt ==> LookingAt(text, i, "{{{") || LookingAt(text, i, "{{~{"))
            && (b == HandlebarsStartAt ==> LookingAt(text, i, "{{#") || LookingAt(text, i, "{{^") || LookingAt(text, i, "{{~#"))
            && (b == HandlebarsEndAt ==> LookingAt(text, i, "{{/") || LookingAt(text, i, "{{~/"))
            && (b == DjangoElseAt ==> LookingAt(text, i, "{% else") || LookingAt(text, i, "{% elif") || LookingAt(text, i, "{%- else") || LookingAt(text, i, "{%- elif"))
            && (b == DjangoEndAt ==> LookingAt(text, i, "{% end"))
            && (b == DjangoStartAt ==> LookingAt(text, i, "{% "))
            && (b == JinjaEndAt ==> LookingAt(text, i, "{%- end"))
            && (b == JinjaStartAt ==> LookingAt(text, i, "{%-"))
            && (b == VarAt ==> text[i] == '{')
            && (b == NewlineAt ==> text[i] == '\n')
  {
  }

  lemma CommentSpelled(text: string, i: nat, end: nat, open: string, skip: nat, close: string)
    requires LookingAt(text, i, open) && FirstClosed(text, i + skip, close, end) && |open| + |close| <= skip
    ensures i <= end <= |text| && FramedBy(text[i..end], open, close, Strip(Inner(text[i..end], |open|, |close|)))
  {
    StandsBetween(text, i, end, open, close);
    FrameTag(text[i..end], open, close, Strip(Inner(text[i..end], |open|, |close|)));
  }

  lemma PartialSpelled(text: string, i: nat, end: nat)
    requires LookingAt(text, i, "{{>") && FirstClosed(text, i + 10, "}}", end)
    ensures i <= end <= |text| && IsSpelled(HandlebarsPartial, text[i..end], Strip(Inner(text[i..end], 9, 2)))
  {
    StandsBetween(text, i, end, "{{>", "}}");
    var s := text[i..end];
    if |s| >= 11 {
      FrameTag(s, s[..9], "}}", Strip(Inner(s, 9, 2)));
    }
  }

  lemma WordSpelled(s: string, a: nat, b: nat, kind: Kind, tag: string)
    requires WordLabel(FirstWord(Inner(s, a, b)), kind) == Ok((kind, tag))
    ensures IsFirstWord(Inner(s, a, b), Strip(tag))
  {
    FirstWordIs(Inner(s, a, b), tag);
    WordIsStripped(tag);
  }

  lemma PartialBlockSpelled(text: string, i: nat, end: nat, tag: string)
    requires LookingAt(text, i, "{{#>") && FirstClosed(text, i + 10, "}}", end)
    requires WordLabel(FirstWord(Inner(text[i..end], 5, 2)), HandlebarsPartialBlock) == Ok((HandlebarsPartialBlock, tag))
    ensures i <= end <= |text| && IsSpelled(HandlebarsPartialBlock, text[i..end], Strip(tag))
  {
    StandsBetween(text, i, end, "{{#>", "}}");
    WordSpelled(text[i..end], 5, 2, HandlebarsPartialBlock, tag);
  }

  lemma DjangoStartSpelled(text: string, i: nat, end: nat, nl: bool, kind: Kind, tag: string)
    requires LookingAt(text, i, "{% ") && DjangoEnds(text, i, false, end) && Label(DjangoStartAt, text[i..end], nl) == Ok((kind, tag))
    ensures i <= end <= |text| && IsSpelled(kind, text[i..end], Strip(tag))
  {
    TagBetween(text, i, end, "{% ", i + 2, "%}");
    WordSpelled(text[i..end], 3, 2, kind, tag);
  }

  lemma JinjaStartSpelled(text: string, i: nat, end: nat, tag: string)
    requires LookingAt(text, i, "{%-") && DjangoEnds(text, i, true, end)
    requires WordLabel(FirstWord(Inner(text[i..end], 3, 3)), JinjaStrippedType2Start) == Ok((JinjaStrippedType2Start, tag))
    ensures i <= end <= |text| && IsSpelled(JinjaStrippedType2Start, text[i..end], Strip(tag))
  {
    TagBetween(text, i, end, "{%-", i + 3, "%}");
    WordSpelled(text[i..end], 3, 3, JinjaStrippedType2Start, tag);
  }

  lemma ElseSpelled(text: string, i: nat, end: nat)
    requires LookingAt(text, i, "{{else") && HandlebarsEnds(text, i, end)
    ensures i <= end <= |text| && Between(text[i..end], "{{else", "}}")
  {
    TagBetween(text, i, end, "{{else", i + 2, "}}");
  }

  lemma ElseIsStripped()
    ensures Strip("else") == "else" && Strip("var") == "var" && Strip("newline") == "newline" && Strip("") == ""
  {
    WordIsStripped("else");
    WordIsStripped("var");
    WordIsStripped("newline");
  }

  type Speller = (Kind, string, string) -> bool

  /** The speller is the rule above, as a value. */
  ghost predicate IsSpeller(spelled: Speller) {
    forall kind, s, tag {:trigger IsSpelled(kind, s, tag)} :: spelled(kind, s, tag) == IsSpelled(kind, s, tag)
  }

  lemma TheSpeller() returns (spelled: Speller)
    ensures IsSpeller(spelled)
  {
    spelled := (kind: Kind, s: string, tag: string) => IsSpelled(kind, s, tag);
  }

  /** Handlebars tags. */
  lemma HandlebarsSpelled(branch: Branch, text: string, i: nat, end: nat, format: Format, nl: bool, kind: Kind, tag: string)
    requires i < |text| && branch == BranchAt(text, i, format) && TokenEnds(branch, text, i, end) && i <= end <= |text|
    requires Label(branch, text[i..end], nl) == Ok((kind, tag)) && IsHandlebars(branch)
    ensures IsSpelled(kind, text[i..end], Strip(tag))
  {
    BranchMarks(text, i, format);
    ElseIsStripped();
    match branch
    case HandlebarsCommentAt => CommentSpelled(text, i, end, "{{!", 5, "}}");
    case PartialAt => PartialSpelled(text, i, end);
    case PartialBlockAt => PartialBlockSpelled(text, i, end, tag);
    case HandlebarsElseAt => ElseSpelled(text, i, end);
    case TripleStacheAt =>
      TripleSpelled(text, i, end, tag);
      StripTwice(Inner(text[i..end], if "{{~{" <= text[i..end] then 4 else 3, if EndsWith(text[i..end], "}~}}") then 4 else 3));
    case HandlebarsStartAt => HandlebarsStartSpelled(text, i, end, tag);
    case HandlebarsEndAt => HandlebarsEndSpelled(text, i, end);
  }

  predicate IsHandlebars(b: Branch) {
    b.HandlebarsCommentAt? || b.PartialAt? || b.PartialBlockAt? || b.HandlebarsElseAt? || b.TripleStacheAt? || b.HandlebarsStartAt? || b.HandlebarsEndAt?
  }

  /** Django tags and variables. */
  lemma DjangoSpelled(branch: Branch, text: string, i: nat, end: nat, format: Format, nl: bool, kind: Kind, tag: string)
    requires i < |text| && branch == BranchAt(text, i, format) && TokenEnds(branch, text, i, end) && i <= end <= |text|
    requires Label(branch, text[i..end], nl) == Ok((kind, tag)) && IsDjango(branch)
    ensures IsSpelled(kind, text[i..end], Strip(tag))
  {
    BranchMarks(text, i, format);
    ElseIsStripped();
    match branch
    case DjangoCommentAt => CommentSpelled(text, i, end, "{#", 4, "#}");
    case DjangoElseAt => DjangoElseSpelled(text, i, end);
    case DjangoEndAt => DjangoEndSpelled(text, i, end, "{% end", Strip(tag));
    case DjangoStartAt => DjangoStartSpelled(text, i, end, nl, kind, tag);
    case JinjaEndAt => DjangoEndSpelled(text, i, end, "{%- end", Strip(tag));
    case JinjaStartAt => JinjaStartSpelled(text, i, end, tag);
    case VarAt => VarSpelled(text, i, end);
  }

  predicate IsDjango(b: Branch) {
    b.DjangoCommentAt? || b.DjangoElseAt? || b.DjangoEndAt? || b.DjangoStartAt? || b.JinjaEndAt? || b.JinjaStartAt? || b.VarAt?
  }

  lemma StripTwice(s: string)
    ensures Strip(Strip(s)) == Strip(s)
  {
    StripLeftStartsClean(s);
    var t := StripLeft(s);
    StripRightIsPrefix(t);
    StripRightEndsClean(t);
    StripRightKeeps(StripRight(t));
  }

  lemma {:induction false} StripRightEndsClean(s: string)
    ensures StripRight(s) == "" || !IsSpace(StripRight(s)[|StripRight(s)| - 1])
  {
    if s != "" && IsSpace(s[|s| - 1]) {
      StripRightEndsClean(s[..|s| - 1]);
    }
  }

  /** Angle brackets, newlines, spaces. */
  lemma OtherSpelled(branch: Branch, text: string, i: nat, end: nat, format: Format, nl: bool, kind: Kind, tag: string)
    requires i < |text| && branch == BranchAt(text, i, format) && TokenEnds(branch, text, i, end) && i <= end <= |text|
    requires Label(branch, text[i..end], nl) == Ok((kind, tag)) && !IsHandlebars(branch) && !IsDjango(branch) && branch != TextAt
    ensures IsSpelled(kind, text[i..end], Strip(tag))
  {
    BranchMarks(text, i, format);
    ElseIsStripped();
    match branch
    case HtmlCommentAt => CommentSpelled(text, i, end, "<!--", 7, "-->");
    case HtmlStartAt =>
      HtmlSpelled(text, i, end, kind, tag);
      WordIsStripped(tag);
    case HtmlEndAt => EndTagSpelled(text, i, end);
    case NewlineAt => assert text[i..end] == [text[i]];
    case SpacesAt =>
  }

  lemma HandlebarsTold(spelled: Speller, text: string, format: Format, at: nat, s: string, nl: bool, kind: Kind, tag: string)
    requires IsSpeller(spelled) && at < |text| && IsHandlebars(BranchAt(text, at, format))
    requires EndsAt(text, format, at, at + |s|) && LookingAt(text, at, s) && LabelAt(text, format, at, s, nl) == Ok((kind, tag))
    ensures spelled(kind, s, Strip(tag))
  {
    HandlebarsSpelled(BranchAt(text, at, format), text, at, at + |s|, format, nl, kind, tag);
  }

  lemma DjangoTold(spelled: Speller, text: string, format: Format, at: nat, s: string, nl: bool, kind: Kind, tag: string)
    requires IsSpeller(spelled) && at < |text| && IsDjango(BranchAt(text, at, format))
    requires EndsAt(text, format, at, at + |s|) && LookingAt(text, at, s) && LabelAt(text, format, at, s, nl) == Ok((kind, tag))
    ensures spelled(kind, s, Strip(tag))
  {
    DjangoSpelled(BranchAt(text, at, format), text, at, at + |s|, format, nl, kind, tag);
  }

  lemma OtherTold(spelled: Speller, text: string, format: Format, at: nat, s: string, nl: bool, kind: Kind, tag: string)
    requires IsSpeller(spelled) && at < |text| && !IsHandlebars(BranchAt(text, at, format)) && !IsDjango(BranchAt(text, at, format))
    requires BranchAt(text, at, format) != TextAt
    requires EndsAt(text, format, at, at + |s|) && LookingAt(text, at, s) && LabelAt(text, format, at, s, nl) == Ok((kind, tag))
    ensures spelled(kind, s, Strip(tag))
  {
    OtherSpelled(BranchAt(text, at, format), text, at, at + |s|, format, nl, kind, tag);
  }

  lemma PlainTold(spelled: Speller, text: string, format: Format, at: nat, s: string, nl: bool, kind: Kind, tag: string)
    requires IsSpeller(spelled) && TextStands(text, format, at) && LabelAt(text, format, at, s, nl) == Ok((kind, tag))
    ensures spelled(kind, s, Strip(tag))
  {
    ElseIsStripped();
    assert spelled(kind, s, Strip(tag)) == IsSpelled(kind, s, Strip(tag));
  }

  lemma CodeTold(spelled: Speller, s: string)
    requires IsSpeller(spelled)
    ensures spelled(Code, s, "")
  {
    assert spelled(Code, s, "") == IsSpelled(Code, s, "");
  }

  lemma NamedTold(spelled: Speller, text: string, format: Format, at: nat, s: string, nl: bool, kind: Kind, tag: string)
    requires IsSpeller(spelled) && at < |text| && EndsAt(text, format, at, at + |s|)
    requires TextStands(text, format, at) || LookingAt(text, at, s)
    requires LabelAt(text, format, at, s, nl) == Ok((kind, tag))
    ensures spelled(kind, s, Strip(tag))
  {
    var branch := BranchAt(text, at, format);
    if branch == TextAt {
      PlainTold(spelled, text, format, at, s, nl, kind, tag);
    } else if IsDjango(branch) {
      DjangoTold(spelled, text, format, at, s, nl, kind, tag);
    } else if IsHandlebars(branch) {
      HandlebarsTold(spelled, text, format, at, s, nl, kind, tag);
    } else {
      OtherTold(spelled, text, format, at, s, nl, kind, tag);
    }
  }

  /** Whatever the reader names is spelled as it is named. */
  ghost predicate ReaderSpells(spelled: Speller, text: string, reader: Reader) {
    forall at: nat, s, nl {:trigger reader.name(at, s, nl)} ::
      at < |text| && Spelled(text, reader, false, s, at) && reader.name(at, s, nl).Ok? ==>
        spelled(reader.name(at, s, nl).value.0, s, Strip(reader.name(at, s, nl).value.1))
  }

  lemma OffsetSpells(spelled: Speller, text: string, format: Format, reader: Reader, at: nat, s: string, nl: bool)
    requires IsSpeller(spelled) && IsReader(reader, text, format)
    requires at < |text| && Spelled(text, reader, false, s, at) && reader.name(at, s, nl).Ok?
    ensures spelled(reader.name(at, s, nl).value.0, s, Strip(reader.name(at, s, nl).value.1))
  {
    var named := LabelAt(text, format, at, s, nl);
    assert EndsAt(text, format, at, at + |s|);
    assert reader.plain(at) == TextStands(text, format, at);
    NamedTold(spelled, text, format, at, s, nl, named.value.0, named.value.1);
  }

  lemma ReadersSpell(spelled: Speller, text: string, format: Format, reader: Reader)
    requires IsSpeller(spelled) && IsReader(reader, text, format)
    ensures ReaderSpells(spelled, text, reader)
  {
    forall at: nat, s, nl | at < |text| && Spelled(text, reader, false, s, at) && reader.name(at, s, nl).Ok?
      ensures spelled(reader.name(at, s, nl).value.0, s, Strip(reader.name(at, s, nl).value.1))
    {
      OffsetSpells(spelled, text, format, reader, at, s, nl);
    }
  }

  /** The kind and the tag of every token the tokenizer cuts are those its own text calls for. */
  lemma TokenIsSpelled(spelled: Speller, text: string, reader: Reader, before: Option<(Token, nat)>, t: Token, at: nat)
    requires IsSpeller(spelled) && ReaderSpells(spelled, text, reader) && ReadsAs(text, reader, before, t, at)
    ensures spelled(t.kind, t.s, t.tag)
  {
    if CodeNext(text, reader, before, at) {
      CodeTold(spelled, t.s);
    } else {
      assert reader.name(at, t.s, AfterNewline(before)).Ok?;
    }
  }

  lemma ReaderIsReader(text: string, format: Format)
    ensures IsReader(ReaderOf(text, format), text, format)
  {
  }

  // ---------------------------------------------------------------- what is left over

  /** The marks that make something else than a variable of a brace. */
  function MarksOf(format: Format): set<string> {
    match format
    case Handlebars => {"{{!", "{{>", "{{#>", "{{else", "{{{", "{{~{"} + BLOCK_MARKS + END_MARKS
    case Django => {"{{!", "{#", "{% end", "{% ", "{%- end", "{%-"} + BLOCK_MARKS + ELSE_MARKS
    case Unspecified => {"{{!"} + BLOCK_MARKS
  }

  lemma VarSeesNoMark(text: string, i: nat, format: Format, p: string)
    requires i < |text| && BranchAt(text, i, format) == VarAt && p in MarksOf(format)
    ensures !LookingAt(text, i, p)
  {
  }

  lemma PrefixStands(text: string, at: nat, s: string, p: string)
    requires LookingAt(text, at, s)
    ensures p <= s ==> LookingAt(text, at, p)
  {
    if p <= s {
      assert text[at..at + |p|] == s[..|p|];
    }
  }

  lemma OnlyVarIsVar(branch: Branch, s: string, nl: bool)
    requires Label(branch, s, nl).Ok? && Label(branch, s, nl).value.0 == TemplateVar
    ensures branch == VarAt
  {
  }

  /** A token counts as a variable only if it opens with no mark of its format. */
  ghost predicate ReaderLeaves(text: string, format: Format, reader: Reader) {
    forall at: nat, s, nl {:trigger reader.name(at, s, nl)} ::
      at < |text| && Spelled(text, reader, false, s, at) && reader.name(at, s, nl).Ok? && reader.name(at, s, nl).value.0 == TemplateVar ==>
        !OpensWith(s, MarksOf(format))
  }

  lemma OffsetLeaves(text: string, format: Format, reader: Reader, at: nat, s: string, nl: bool)
    requires IsReader(reader, text, format) && at < |text| && Spelled(text, reader, false, s, at)
    requires reader.name(at, s, nl).Ok? && reader.name(at, s, nl).value.0 == TemplateVar
    ensures !OpensWith(s, MarksOf(format))
  {
    var named := LabelAt(text, format, at, s, nl);
    assert named == reader.name(at, s, nl);
    OnlyVarIsVar(BranchAt(text, at, format), s, nl);
    assert reader.plain(at) == TextStands(text, format, at);
    forall p | p in MarksOf(format) ensures !(p <= s) {
      PrefixStands(text, at, s, p);
      VarSeesNoMark(text, at, format, p);
    }
  }

  lemma ReadersLeave(text: string, format: Format, reader: Reader)
    requires IsReader(reader, text, format)
    ensures ReaderLeaves(text, format, reader)
  {
    forall at: nat, s, nl | at < |text| && Spelled(text, reader, false, s, at) && reader.name(at, s, nl).Ok? && reader.name(at, s, nl).value.0 == TemplateVar
      ensures !OpensWith(s, MarksOf(format))
    {
      OffsetLeaves(text, format, reader, at, s, nl);
    }
  }

  lemma VarIsUnmarked(text: string, format: Format, reader: Reader, before: Option<(Token, nat)>, t: Token, at: nat)
    requires ReaderLeaves(text, format, reader) && ReadsAs(text, reader, before, t, at) && t.kind == TemplateVar
    ensures !OpensWith(t.s, MarksOf(format))
  {
    assert reader.name(at, t.s, AfterNewline(before)).Ok?;
  }

  /**
  The kind and the tag of every token fit its text: it opens and closes with the marks of its kind and the tag is
  what stands between them, or the first word of it; and only what opens with no mark of the format is a variable.
  */
  lemma EveryTokenIsSpelled(text: string, format: Format, r: Outcome)
    requires IsOutcome(text, ReaderOf(text, format), r)
    ensures forall n :: 0 <= n < |r.tokens| ==> IsSpelled(r.tokens[n].kind, r.tokens[n].s, r.tokens[n].tag)
    ensures forall n :: 0 <= n < |r.tokens| && r.tokens[n].kind == TemplateVar ==> !OpensWith(r.tokens[n].s, MarksOf(format))
  {
    var reader := ReaderOf(text, format);
    var spelled := TheSpeller();
    ReaderIsReader(text, format);
    ReadersSpell(spelled, text, format, reader);
    ReadersLeave(text, format, reader);
    AllSpelled(spelled, text, format, reader, r.tokens);
    forall n | 0 <= n < |r.tokens| ensures IsSpelled(r.tokens[n].kind, r.tokens[n].s, r.tokens[n].tag) {
      assert spelled(r.tokens[n].kind, r.tokens[n].s, r.tokens[n].tag);
    }
  }

  lemma AllSpelled(spelled: Speller, text: string, format: Format, reader: Reader, tokens: seq<Token>)
    requires IsSpeller(spelled) && ReaderSpells(spelled, text, reader) && ReaderLeaves(text, format, reader) && AllRead(text, reader, tokens)
    ensures forall n :: 0 <= n < |tokens| ==> spelled(tokens[n].kind, tokens[n].s, tokens[n].tag)
    ensures forall n :: 0 <= n < |tokens| && tokens[n].kind == TemplateVar ==> !OpensWith(tokens[n].s, MarksOf(format))
  {
    forall n | 0 <= n < |tokens| ensures spelled(tokens[n].kind, tokens[n].s, tokens[n].tag) {
      TokenIsSpelled(spelled, text, reader, Before(tokens, n), tokens[n], Offset(tokens, n));
    }
    forall n | 0 <= n < |tokens| && tokens[n].kind == TemplateVar ensures !OpensWith(tokens[n].s, MarksOf(format)) {
      VarIsUnmarked(text, format, reader, Before(tokens, n), tokens[n], Offset(tokens, n));
    }
  }
}
