/** The template tokenizer: which tokens it cuts, and exactly when they join to the text again. */
module Tokenizer {
  import opened Options
  import opened Tokens
  import opened Scanners

  datatype Format = Django | Handlebars | Unspecified

  // ---------------------------------------------------------------- positions

  function Newlines(s: string): nat {
    if s == "" then 0 else Newlines(s[..|s| - 1]) + (if s[|s| - 1] == '\n' then 1 else 0)
  }

  /** The offset at which the line of offset `i` begins. */
  function LineStart(text: string, i: nat): nat
    requires i <= |text|
  {
    if i == 0 then 0 else if text[i - 1] == '\n' then i else LineStart(text, i - 1)
  }

  /** What the line start means: nothing but that line lies between it and `i`. */
  lemma {:induction false} LineStartIs(text: string, i: nat)
    requires i <= |text|
    ensures LineStart(text, i) <= i && (LineStart(text, i) == 0 || text[LineStart(text, i) - 1] == '\n')
    ensures forall k :: LineStart(text, i) <= k < i ==> text[k] != '\n'
  {
    if i > 0 && text[i - 1] != '\n' {
      LineStartIs(text, i - 1);
    }
  }

  function LineAt(text: string, i: nat): nat
    requires i <= |text|
  {
    Newlines(text[..i]) + 1
  }

  function ColumnAt(text: string, i: nat): int
    requires i <= |text|
  {
    i - LineStart(text, i) + 1
  }

  // ---------------------------------------------------------------- which scanner

  datatype Branch =
    | HtmlCommentAt | HandlebarsCommentAt | DjangoCommentAt | PartialAt | PartialBlockAt | HtmlStartAt | HtmlEndAt
    | HandlebarsElseAt | TripleStacheAt | HandlebarsStartAt | HandlebarsEndAt | DjangoElseAt | DjangoEndAt | DjangoStartAt
    | JinjaEndAt | JinjaStartAt | VarAt | NewlineAt | SpacesAt | TextAt

  /** What stands at `i`, in the order in which the tokenizer asks. */
  function BranchAt(text: string, i: nat, format: Format): Branch
    requires i < |text|
  {
    if text[i] == '<' then
      if LookingAt(text, i, "<!--") then HtmlCommentAt
      else if LookingAt(text, i, "</") then HtmlEndAt else HtmlStartAt
    else if text[i] == '{' then
      if LookingAt(text, i, "{{!") then HandlebarsCommentAt
      else if format.Django? then DjangoBranchAt(text, i)
      else if format.Handlebars? then HandlebarsBranchAt(text, i)
      else if LookingAt(text, i, "{{#") || LookingAt(text, i, "{{^") || LookingAt(text, i, "{{~#") then HandlebarsStartAt
      else VarAt
    else if text[i] == '\n' then NewlineAt
    else if text[i] == ' ' then SpacesAt
    else TextAt
  }

  function HandlebarsBranchAt(text: string, i: nat): Branch {
    if LookingAt(text, i, "{{>") then PartialAt
    else if LookingAt(text, i, "{{#>") then PartialBlockAt
    else if LookingAt(text, i, "{{else") then HandlebarsElseAt
    else if LookingAt(text, i, "{{{") || LookingAt(text, i, "{{~{") then TripleStacheAt
    else if LookingAt(text, i, "{{#") || LookingAt(text, i, "{{^") || LookingAt(text, i, "{{~#") then HandlebarsStartAt
    else if LookingAt(text, i, "{{/") || LookingAt(text, i, "{{~/") then HandlebarsEndAt
    else VarAt
  }

  function DjangoBranchAt(text: string, i: nat): Branch {
    if LookingAt(text, i, "{#") then DjangoCommentAt
    else if LookingAt(text, i, "{{#") || LookingAt(text, i, "{{^") || LookingAt(text, i, "{{~#") then HandlebarsStartAt
    else if LookingAt(text, i, "{% else") || LookingAt(text, i, "{% elif") || LookingAt(text, i, "{%- else") || LookingAt(text, i, "{%- elif")
    then DjangoElseAt
    else if LookingAt(text, i, "{% end") then DjangoEndAt
    else if LookingAt(text, i, "{% ") then DjangoStartAt
    else if LookingAt(text, i, "{%- end") then JinjaEndAt
    else if LookingAt(text, i, "{%-") then JinjaStartAt
    else VarAt
  }

  /** The tests, one after the other. */
  method Look(text: string, i: nat, format: Format) returns (branch: Branch)
    requires i < |text|
    ensures branch == BranchAt(text, i, format)
  {
    OpensSo(text, i);
    if LookingAt(text, i, "<!--") {
      return HtmlCommentAt;
    } else if LookingAt(text, i, "{{!") {
      return HandlebarsCommentAt;
    } else if format.Django? && LookingAt(text, i, "{#") {
      return DjangoCommentAt;
    } else if format.Handlebars? && LookingAt(text, i, "{{>") {
      return PartialAt;
    } else if format.Handlebars? && LookingAt(text, i, "{{#>") {
      return PartialBlockAt;
    } else if text[i] == '<' && !LookingAt(text, i, "</") {
      return HtmlStartAt;
    } else if LookingAt(text, i, "</") {
      return HtmlEndAt;
    } else if format.Handlebars? && LookingAt(text, i, "{{else") {
      return HandlebarsElseAt;
    } else if format.Handlebars? && (LookingAt(text, i, "{{{") || LookingAt(text, i, "{{~{")) {
      return TripleStacheAt;
    } else if LookingAt(text, i, "{{#") || LookingAt(text, i, "{{^") || LookingAt(text, i, "{{~#") {
      return HandlebarsStartAt;
    } else if format.Handlebars? && (LookingAt(text, i, "{{/") || LookingAt(text, i, "{{~/")) {
      return HandlebarsEndAt;
    } else if format.Django? {
      branch := LookDjango(text, i);
      return;
    }
    return LookPlain(text, i);
  }

  method LookDjango(text: string, i: nat) returns (branch: Branch)
    requires i < |text| && !LookingAt(text, i, "{{!") && !LookingAt(text, i, "{#") && text[i] != '<'
    requires !LookingAt(text, i, "{{#") && !LookingAt(text, i, "{{^") && !LookingAt(text, i, "{{~#")
    ensures branch == BranchAt(text, i, Django)
  {
    OpensSo(text, i);
    if LookingAt(text, i, "{% else") || LookingAt(text, i, "{% elif") || LookingAt(text, i, "{%- else") || LookingAt(text, i, "{%- elif") {
      return DjangoElseAt;
    } else if LookingAt(text, i, "{% end") {
      return DjangoEndAt;
    } else if LookingAt(text, i, "{% ") {
      return DjangoStartAt;
    } else if LookingAt(text, i, "{%- end") {
      return JinjaEndAt;
    } else if LookingAt(text, i, "{%-") {
      return JinjaStartAt;
    }
    return LookPlain(text, i);
  }

  function LookPlain(text: string, i: nat): Branch
    requires i < |text|
  {
    if text[i] == '{' then VarAt else if text[i] == '\n' then NewlineAt else if text[i] == ' ' then SpacesAt else TextAt
  }

  lemma OpensWithChar(text: string, i: nat, p: string)
    requires p != "" && i < |text|
    ensures LookingAt(text, i, p) ==> text[i] == p[0]
  {
    if LookingAt(text, i, p) {
      assert text[i..i + |p|][0] == text[i];
    }
  }

  /** Every mark begins with an angle bracket or a brace. */
  lemma OpensSo(text: string, i: nat)
    requires i < |text|
    ensures LookingAt(text, i, "<!--") || LookingAt(text, i, "</") ==> text[i] == '<'
    ensures LookingAt(text, i, "{{!") || LookingAt(text, i, "{#") || LookingAt(text, i, "{{>") || LookingAt(text, i, "{{#>") ==> text[i] == '{'
    ensures LookingAt(text, i, "{{else") || LookingAt(text, i, "{{{") || LookingAt(text, i, "{{~{") ==> text[i] == '{'
    ensures LookingAt(text, i, "{{#") || LookingAt(text, i, "{{^") || LookingAt(text, i, "{{~#") ==> text[i] == '{'
    ensures LookingAt(text, i, "{{/") || LookingAt(text, i, "{{~/") ==> text[i] == '{'
    ensures LookingAt(text, i, "{% else") || LookingAt(text, i, "{% elif") || LookingAt(text, i, "{%- else") || LookingAt(text, i, "{%- elif") ==> text[i] == '{'
    ensures LookingAt(text, i, "{% end") || LookingAt(text, i, "{% ") || LookingAt(text, i, "{%- end") || LookingAt(text, i, "{%-") ==> text[i] == '{'
  {
    OpensWithChar(text, i, "<!--");
    OpensWithChar(text, i, "</");
    OpensWithChar(text, i, "{{!");
    OpensWithChar(text, i, "{#");
    OpensWithChar(text, i, "{{>");
    OpensWithChar(text, i, "{{#>");
    OpensWithChar(text, i, "{{else");
    OpensWithChar(text, i, "{{{");
    OpensWithChar(text, i, "{{~{");
    OpensWithChar(text, i, "{{#");
    OpensWithChar(text, i, "{{^");
    OpensWithChar(text, i, "{{~#");
    OpensWithChar(text, i, "{{/");
    OpensWithChar(text, i, "{{~/");
    OpensWithChar(text, i, "{% else");
    OpensWithChar(text, i, "{% elif");
    OpensWithChar(text, i, "{%- else");
    OpensWithChar(text, i, "{%- elif");
    OpensWithChar(text, i, "{% end");
    OpensWithChar(text, i, "{% ");
    OpensWithChar(text, i, "{%- end");
    OpensWithChar(text, i, "{%-");
  }

  /** A handlebars tag opens with two braces and then no closing one. */
  lemma HandlebarsOpens(text: string, i: nat, format: Format)
    requires i < |text| && BranchAt(text, i, format) in {HandlebarsElseAt, HandlebarsStartAt, HandlebarsEndAt}
    ensures i + 3 <= |text| && text[i + 2] != '}'
  {
    HandlebarsTagOpens(text, i, "{{#");
    HandlebarsTagOpens(text, i, "{{^");
    HandlebarsTagOpens(text, i, "{{~#");
    HandlebarsTagOpens(text, i, "{{/");
    HandlebarsTagOpens(text, i, "{{~/");
    HandlebarsTagOpens(text, i, "{{else");
  }

  lemma HandlebarsTagOpens(text: string, i: nat, p: string)
    requires |p| >= 3 && p[2] != '}'
    ensures LookingAt(text, i, p) ==> i + 3 <= |text| && text[i + 2] != '}'
  {
    if LookingAt(text, i, p) {
      assert text[i + 2] == text[i..i + |p|][2];
    }
  }

  lemma ThreeAhead(text: string, i: nat, format: Format)
    requires i < |text| && BranchAt(text, i, format) in {TripleStacheAt, DjangoElseAt, DjangoEndAt, DjangoStartAt, JinjaEndAt, JinjaStartAt}
    ensures i + 3 <= |text|
  {
  }

  /** The token at `i` ends at `end`. */
  predicate TokenEnds(branch: Branch, text: string, i: nat, end: nat) {
    match branch
    case HtmlCommentAt => FirstClosed(text, i + 7, "-->", end)
    case HandlebarsCommentAt => FirstClosed(text, i + 5, "}}", end)
    case DjangoCommentAt => FirstClosed(text, i + 4, "#}", end)
    case PartialAt | PartialBlockAt => FirstClosed(text, i + 10, "}}", end)
    case HtmlStartAt | HtmlEndAt => HtmlTagEnds(text, i, end)
    case HandlebarsElseAt | HandlebarsStartAt | HandlebarsEndAt => HandlebarsEnds(text, i, end)
    case TripleStacheAt => TripleEnds(text, i, end)
    case DjangoElseAt | DjangoEndAt | DjangoStartAt | JinjaEndAt => DjangoEnds(text, i, false, end)
    case JinjaStartAt => DjangoEnds(text, i, true, end)
    case VarAt => VarEnds(text, i, end)
    case NewlineAt => end == i + 1
    case SpacesAt => SpacesEnd(text, i, end)
    case TextAt => i <= |text| && end == i + |Strip(TextRun(text, i))|
  }

  /** What is raised when the token at `i` has no end. */
  function EndlessFailure(branch: Branch, text: string, i: nat): Failure
    requires i < |text|
  {
    match branch
    case HtmlCommentAt => UnclosedFailure(text, i + 7, "Unclosed comment")
    case HandlebarsCommentAt => UnclosedFailure(text, i + 5, "Unclosed comment")
    case DjangoCommentAt => UnclosedFailure(text, i + 4, "Unclosed comment")
    case PartialAt | PartialBlockAt => UnclosedFailure(text, i + 10, "Unclosed partial")
    case HtmlStartAt | HtmlEndAt => HtmlFailure(text, i)
    case TripleStacheAt => TokenizationError("Tag missing \"}}}\"")
    case DjangoElseAt | DjangoEndAt | DjangoStartAt | JinjaEndAt => DjangoFailure(text, i + 2)
    case JinjaStartAt => DjangoFailure(text, i + 3)
    case VarAt => UnclosedFailure(text, i + 3, "Unclosed var")
    case _ => TokenizationError("Tag missing \"}}\"")
  }

  /** Where the token at `i` ends. */
  method Scan(branch: Branch, text: string, i: nat, format: Format) returns (r: Result<nat, Failure>)
    requires i < |text| && branch == BranchAt(text, i, format) && branch != TextAt
    ensures r.Ok? ==> i < r.value <= |text| && TokenEnds(branch, text, i, r.value)
    ensures r.Err? ==> r.error == EndlessFailure(branch, text, i) && forall end: nat :: !TokenEnds(branch, text, i, end)
  {
    match branch
    case HtmlCommentAt => r := GetClosed(text, i, 7, "-->", "Unclosed comment");
    case HandlebarsCommentAt => r := GetClosed(text, i, 5, "}}", "Unclosed comment");
    case DjangoCommentAt => r := GetClosed(text, i, 4, "#}", "Unclosed comment");
    case PartialAt | PartialBlockAt => r := GetClosed(text, i, 10, "}}", "Unclosed partial");
    case HtmlStartAt | HtmlEndAt => r := GetHtmlTag(text, i);
    case HandlebarsElseAt | HandlebarsStartAt | HandlebarsEndAt =>
      HandlebarsOpens(text, i, format);
      r := GetHandlebarsTag(text, i);
    case TripleStacheAt =>
      ThreeAhead(text, i, format);
      r := GetTripleStache(text, i);
    case DjangoElseAt | DjangoEndAt | DjangoStartAt | JinjaEndAt =>
      ThreeAhead(text, i, format);
      r := GetDjangoTag(text, i, false);
    case JinjaStartAt =>
      ThreeAhead(text, i, format);
      r := GetDjangoTag(text, i, true);
    case VarAt => r := GetTemplateVar(text, i);
    case NewlineAt => r := Ok(i + 1);
    case SpacesAt =>
      var end := GetSpaces(text, i);
      r := Ok(end);
  }

  // ---------------------------------------------------------------- kinds and tags

  /** Python's `s[a:-b]`. */
  function Inner(s: string, a: nat, b: nat): string {
    if a + b <= |s| then s[a..|s| - b] else ""
  }

  function WordLength(s: string): (n: nat)
    ensures n <= |s|
  {
    if s == "" || IsSpace(s[0]) then 0 else 1 + WordLength(s[1..])
  }

  /** The first of Python's `split()`, if there is one. */
  function FirstWord(s: string): Option<string> {
    var t := StripLeft(s);
    if t == "" then None else Some(t[..WordLength(t)])
  }

  predicate EndsWith(s: string, p: string) {
    |p| <= |s| && s[|s| - |p|..] == p
  }

  function DropStar(s: string): string {
    if s != "" && s[0] == '*' then s[1..] else s
  }

  const CODE_TAGS: set<string> := {"code", "pre", "script"}

  function HtmlLabel(s: string): Result<(Kind, string), Failure> {
    match FirstWord(Inner(s, 1, if EndsWith(s, "/>") then 2 else 1))
    case None => Err(TemplateParserError("Tag name missing"))
    case Some(tag) =>
      Ok((if tag == "!DOCTYPE" || tag == "!doctype" then HtmlDoctype else if EndsWith(s, "/>") then HtmlSingleton else HtmlStart, tag))
  }

  function TripleLabel(s: string): Result<(Kind, string), Failure> {
    var tag := Strip(Inner(s, if "{{~{" <= s then 4 else 3, if EndsWith(s, "}~}}") then 4 else 3));
    if EndsWith(tag, "_html") then Ok((HandlebarsTripleStache, tag))
    else Err(TemplateParserError("Unescaped variables in triple staches {{{ }}} must be suffixed with `_html`"))
  }

  function WordLabel(word: Option<string>, kind: Kind): Result<(Kind, string), Failure> {
    match word
    case None => Err(IndexError)
    case Some(tag) => Ok((kind, tag))
  }

  function StartLabel(word: Option<string>): Result<(Kind, string), Failure> {
    match word
    case None => Err(IndexError)
    case Some(tag) => Ok((HandlebarsStart, DropStar(Trim(tag, {'#'}))))
  }

  /** The kind and the tag of the token `s`. */
  function Label(branch: Branch, s: string, afterNewline: bool): Result<(Kind, string), Failure> {
    match branch
    case HtmlCommentAt => Ok((HtmlComment, Inner(s, 4, 3)))
    case HandlebarsCommentAt => Ok((HandlebarsComment, Inner(s, 3, 2)))
    case DjangoCommentAt => Ok((DjangoComment, Inner(s, 2, 2)))
    case PartialAt => Ok((HandlebarsPartial, Inner(s, 9, 2)))
    case PartialBlockAt => WordLabel(FirstWord(Inner(s, 5, 2)), HandlebarsPartialBlock)
    case HtmlStartAt => HtmlLabel(s)
    case HtmlEndAt => Ok((HtmlEnd, Inner(s, 2, 1)))
    case HandlebarsElseAt => Ok((HandlebarsElse, "else"))
    case TripleStacheAt => TripleLabel(s)
    case HandlebarsStartAt => StartLabel(FirstWord(Inner(s, 3, 2)))
    case HandlebarsEndAt => Ok((HandlebarsEnd, Trim(Inner(s, 3, 2), {'/', '#', '~'})))
    case DjangoElseAt => Ok((DjangoElse, "else"))
    case DjangoEndAt => Ok((DjangoEnd, Inner(s, 6, 3)))
    case DjangoStartAt => WordLabel(FirstWord(Inner(s, 3, 2)), if |s| >= 3 && s[|s| - 3] == '-' then JinjaStrippedStart else DjangoStart)
    case JinjaEndAt => Ok((JinjaStrippedEnd, Inner(s, 7, 3)))
    case JinjaStartAt => WordLabel(FirstWord(Inner(s, 3, 3)), JinjaStrippedType2Start)
    case VarAt => Ok((TemplateVar, "var"))
    case NewlineAt => Ok((Newline, "newline"))
    case SpacesAt => Ok((if afterNewline then Indent else Whitespace, ""))
    case TextAt => Ok((Text, ""))
  }

  function LineSpan(s: string): nat {
    Newlines(Trim(s, {'\n'})) + 1
  }

  // ---------------------------------------------------------------- the tokens of a text

  function Joined(tokens: seq<Token>): string {
    if tokens == [] then "" else Joined(tokens[..|tokens| - 1]) + tokens[|tokens| - 1].s
  }

  function Offset(tokens: seq<Token>, n: nat): nat
    requires n <= |tokens|
  {
    |Joined(tokens[..n])|
  }

  predicate EndsAt(text: string, format: Format, i: nat, end: nat) {
    i < |text| && TokenEnds(BranchAt(text, i, format), text, i, end)
  }

  function LabelAt(text: string, format: Format, i: nat, s: string, afterNewline: bool): Result<(Kind, string), Failure> {
    if i < |text| then Label(BranchAt(text, i, format), s, afterNewline) else Err(IndexError)
  }

  /** The token `s` at `i` is a tag that opens a code block. */
  predicate CodeTagAt(text: string, format: Format, i: nat, s: string) {
    i < |text| && BranchAt(text, i, format) == HtmlStartAt && HtmlLabel(s).Ok? && HtmlLabel(s).value.1 in CODE_TAGS
  }

  /** Plain text stands at `i`. */
  predicate TextStands(text: string, format: Format, i: nat) {
    i < |text| && BranchAt(text, i, format) == TextAt
  }

  function FailureAt(text: string, format: Format, i: nat): Failure {
    if i < |text| then EndlessFailure(BranchAt(text, i, format), text, i) else IndexError
  }

  /** What stands at each offset of a text: where it ends, what it is called, whether it opens a code block or is plain text, what is raised if it has no end. */
  datatype Reader = Reader(
    ends: (nat, nat) -> bool,
    name: (nat, string, bool) -> Result<(Kind, string), Failure>,
    opens: (nat, string) -> bool,
    plain: nat -> bool,
    failure: nat -> Failure)

  function ReaderOf(text: string, format: Format): Reader {
    Reader((i: nat, end: nat) => EndsAt(text, format, i, end),
           (i: nat, s: string, afterNewline: bool) => LabelAt(text, format, i, s, afterNewline),
           (i: nat, s: string) => CodeTagAt(text, format, i, s),
           (i: nat) => TextStands(text, format, i),
           (i: nat) => FailureAt(text, format, i))
  }

  ghost predicate IsReader(reader: Reader, text: string, format: Format) {
    && (forall i: nat, end: nat {:trigger EndsAt(text, format, i, end)} :: reader.ends(i, end) == EndsAt(text, format, i, end))
    && (forall i: nat, s, nl {:trigger LabelAt(text, format, i, s, nl)} :: reader.name(i, s, nl) == LabelAt(text, format, i, s, nl))
    && (forall i: nat, s {:trigger CodeTagAt(text, format, i, s)} :: reader.opens(i, s) == CodeTagAt(text, format, i, s))
    && (forall i: nat {:trigger TextStands(text, format, i)} :: reader.plain(i) == TextStands(text, format, i))
    && (forall i: nat {:trigger FailureAt(text, format, i)} :: reader.failure(i) == FailureAt(text, format, i))
  }

  predicate AfterNewline(before: Option<(Token, nat)>) {
    before.None? || before.value.0.kind == Newline
  }

  predicate AfterCodeTag(reader: Reader, before: Option<(Token, nat)>) {
    before.Some? && before.value.0.kind != Code && reader.opens(before.value.1, before.value.0.s)
  }

  /** The next piece is code: the last token opened a code block, and it is not empty. */
  predicate CodeNext(text: string, reader: Reader, before: Option<(Token, nat)>, at: nat)
    requires at < |text|
  {
    AfterCodeTag(reader, before) && text[at] != '<'
  }

  /** The token before token `n`, and where it stands. */
  function Before(tokens: seq<Token>, n: nat): Option<(Token, nat)>
    requires n <= |tokens|
  {
    if n == 0 then None else Some((tokens[n - 1], Offset(tokens, n - 1)))
  }

  /** `s` is what is cut at `at`: for plain text the stripped run, for anything else what stands there. */
  predicate Spelled(text: string, reader: Reader, code: bool, s: string, at: nat)
    requires at < |text|
  {
    && s != "" && at + |s| <= |text|
    && (if code then CodeEnds(text, at, at + |s|) else reader.ends(at, at + |s|))
    && (if !code && reader.plain(at) then s == Strip(TextRun(text, at)) else LookingAt(text, at, s))
  }

  /**
  The token at `at` is what the tokenizer cuts there: the code just after a tag that opens a code block, and
  otherwise what the first test that applies says; with the line and column of that offset.
  */
  predicate ReadsAs(text: string, reader: Reader, before: Option<(Token, nat)>, t: Token, at: nat) {
    && at < |text| && Spelled(text, reader, CodeNext(text, reader, before, at), t.s, at)
    && (if CodeNext(text, reader, before, at) then t.kind == Code && t.tag == ""
        else
          var named := reader.name(at, t.s, AfterNewline(before));
          t.kind != Code && named.Ok? && named.value.0 == t.kind && Strip(named.value.1) == t.tag)
    && t.line == LineAt(text, at) && t.col == ColumnAt(text, at) && t.lineSpan == LineSpan(t.s)
  }

  /** Each token is what the tokenizer cuts behind those before it. */
  ghost predicate AllRead(text: string, reader: Reader, tokens: seq<Token>) {
    forall n :: 0 <= n < |tokens| ==> ReadsAs(text, reader, Before(tokens, n), tokens[n], Offset(tokens, n))
  }

  // ---------------------------------------------------------------- lossless, exactly when

  /** Token `n` is plain text cut where white space stands, so that it does not stand there. */
  predicate Slips(text: string, reader: Reader, tokens: seq<Token>, n: nat)
    requires n < |tokens|
  {
    tokens[n].kind != Code && reader.plain(Offset(tokens, n)) && Offset(tokens, n) < |text| && IsSpace(text[Offset(tokens, n)])
  }

  /** Plain text stands only where no brace or bracket does. */
  ghost predicate PlainIsText(text: string, reader: Reader) {
    forall i: nat :: reader.plain(i) ==> i < |text| && !Breaks(text[i])
  }

  lemma ReaderPlain(text: string, format: Format)
    ensures PlainIsText(text, ReaderOf(text, format))
  {
  }

  lemma InPlaceUnlessSlips(text: string, reader: Reader, tokens: seq<Token>, n: nat)
    requires PlainIsText(text, reader) && n < |tokens| && ReadsAs(text, reader, Before(tokens, n), tokens[n], Offset(tokens, n))
    ensures LookingAt(text, Offset(tokens, n), tokens[n].s) <==> !Slips(text, reader, tokens, n)
  {
    var at := Offset(tokens, n);
    if tokens[n].kind != Code && reader.plain(at) {
      TextInPlaceIff(text, at);
    }
  }

  /** The tokens fit into the text, and those that do not stand at their offsets are the `bad` ones. */
  ghost predicate StandsUnless(text: string, tokens: seq<Token>, bad: nat -> bool) {
    forall k: nat {:trigger StandsAt(text, tokens, bad, k)} :: k < |tokens| ==> StandsAt(text, tokens, bad, k)
  }

  predicate StandsAt(text: string, tokens: seq<Token>, bad: nat -> bool, k: nat)
    requires k < |tokens|
  {
    Offset(tokens, k) + |tokens[k].s| <= |text| && (LookingAt(text, Offset(tokens, k), tokens[k].s) <==> !bad(k))
  }

  lemma {:induction false} JoinedUpTo(text: string, tokens: seq<Token>, bad: nat -> bool, n: nat)
    requires StandsUnless(text, tokens, bad) && n <= |tokens|
    ensures Offset(tokens, n) <= |text|
    ensures Joined(tokens[..n]) == text[..Offset(tokens, n)] <==> forall k: nat :: k < n ==> !bad(k)
  {
    if n > 0 {
      JoinedUpTo(text, tokens, bad, n - 1);
      assert StandsAt(text, tokens, bad, n - 1);
      JoinedStep(text, tokens, n);
    }
  }

  lemma ReadFits(text: string, reader: Reader, before: Option<(Token, nat)>, t: Token, at: nat)
    requires ReadsAs(text, reader, before, t, at)
    ensures at + |t.s| <= |text|
  {
  }

  lemma JoinedStep(text: string, tokens: seq<Token>, n: nat)
    requires 0 < n <= |tokens| && Offset(tokens, n - 1) + |tokens[n - 1].s| <= |text|
    ensures Offset(tokens, n) == Offset(tokens, n - 1) + |tokens[n - 1].s|
    ensures Joined(tokens[..n]) == text[..Offset(tokens, n)] <==>
              Joined(tokens[..n - 1]) == text[..Offset(tokens, n - 1)] && LookingAt(text, Offset(tokens, n - 1), tokens[n - 1].s)
  {
    assert tokens[..n][..n - 1] == tokens[..n - 1];
    PrefixGrows(text, Joined(tokens[..n - 1]), tokens[n - 1].s);
  }

  lemma PrefixGrows(text: string, a: string, s: string)
    requires |a| + |s| <= |text|
    ensures a + s == text[..|a| + |s|] <==> a == text[..|a|] && LookingAt(text, |a|, s)
  {
    var p := text[..|a| + |s|];
    assert p == text[..|a|] + text[|a|..|a| + |s|];
    assert (a + s)[..|a|] == a && (a + s)[|a|..] == s;
    assert p[..|a|] == text[..|a|] && p[|a|..] == text[|a|..|a| + |s|];
  }

  lemma StandsThere(text: string, reader: Reader, tokens: seq<Token>, bad: nat -> bool, k: nat)
    requires PlainIsText(text, reader) && k < |tokens| && ReadsAs(text, reader, Before(tokens, k), tokens[k], Offset(tokens, k))
    requires bad(k) == Slips(text, reader, tokens, k)
    ensures StandsAt(text, tokens, bad, k)
  {
    ReadFits(text, reader, Before(tokens, k), tokens[k], Offset(tokens, k));
    InPlaceUnlessSlips(text, reader, tokens, k);
  }

  lemma AllStand(text: string, format: Format, tokens: seq<Token>) returns (bad: nat -> bool)
    requires AllRead(text, ReaderOf(text, format), tokens)
    ensures StandsUnless(text, tokens, bad) && forall k: nat :: k < |tokens| ==> bad(k) == Slips(text, ReaderOf(text, format), tokens, k)
  {
    var reader := ReaderOf(text, format);
    bad := (k: nat) => k < |tokens| && Slips(text, reader, tokens, k);
    ReaderPlain(text, format);
    forall k: nat | k < |tokens| ensures StandsAt(text, tokens, bad, k) {
      StandsThere(text, reader, tokens, bad, k);
    }
  }

  lemma JoinedAll(text: string, tokens: seq<Token>, bad: nat -> bool)
    requires StandsUnless(text, tokens, bad) && |Joined(tokens)| == |text|
    ensures Joined(tokens) == text <==> forall k: nat :: k < |tokens| ==> !bad(k)
  {
    JoinedUpTo(text, tokens, bad, |tokens|);
    assert tokens[..|tokens|] == tokens && text[..|text|] == text;
  }

  /** Tokens of a whole text join to it exactly when none was cut as plain text where white space stands. */
  lemma LosslessIff(text: string, format: Format, tokens: seq<Token>)
    requires AllRead(text, ReaderOf(text, format), tokens) && |Joined(tokens)| == |text|
    ensures Joined(tokens) == text <==> forall n :: 0 <= n < |tokens| ==> !Slips(text, ReaderOf(text, format), tokens, n)
  {
    var bad := AllStand(text, format, tokens);
    JoinedAll(text, tokens, bad);
    SameBad(text, ReaderOf(text, format), tokens, bad);
  }

  lemma SameBad(text: string, reader: Reader, tokens: seq<Token>, bad: nat -> bool)
    requires forall k: nat :: k < |tokens| ==> bad(k) == Slips(text, reader, tokens, k)
    ensures (forall k: nat :: k < |tokens| ==> !bad(k)) <==> forall n :: 0 <= n < |tokens| ==> !Slips(text, reader, tokens, n)
  {
  }

  predicate PlainSpace(text: string) {
    forall k :: 0 <= k < |text| && IsSpace(text[k]) ==> text[k] == ' ' || text[k] == '\n'
  }

  /** Where all white space is spaces and newlines no token slips, and none is cut away to nothing. */
  lemma PlainSpaceIsSafe(text: string, format: Format, i: nat)
    requires PlainSpace(text) && TextStands(text, format, i)
    ensures !IsSpace(text[i]) && Strip(TextRun(text, i)) != ""
  {
    TextInPlaceIff(text, i);
  }

  // ---------------------------------------------------------------- the tokenizer

  /** The tokens; or those before a failure; or those after which the tokenizer stays at its offset for good. */
  datatype Outcome = Whole(tokens: seq<Token>) | Failed(tokens: seq<Token>, failure: Failure) | NeverEnds(tokens: seq<Token>)

  /** Plain text is due and stripped away to nothing. */
  ghost predicate StuckAfter(text: string, reader: Reader, tokens: seq<Token>) {
    var at := |Joined(tokens)|;
    && at < |text| && !CodeNext(text, reader, Before(tokens, |tokens|), at)
    && reader.plain(at) && forall k :: 0 <= k < |TextRun(text, at)| ==> IsSpace(TextRun(text, at)[k])
  }

  /** What is due has no end, or no name. */
  ghost predicate FailsAfter(text: string, reader: Reader, tokens: seq<Token>, f: Failure) {
    var at, before := |Joined(tokens)|, Before(tokens, |tokens|);
    && at < |text| && !CodeNext(text, reader, before, at)
    && (|| ((forall end: nat :: !reader.ends(at, end)) && f == reader.failure(at))
        || (exists s :: Spelled(text, reader, false, s, at) && reader.name(at, s, AfterNewline(before)) == Err(f)))
  }

  /** What the tokenizer may end with: the tokens cut so far, and the reason why there are no more. */
  ghost predicate IsOutcome(text: string, reader: Reader, r: Outcome) {
    && AllRead(text, reader, r.tokens)
    && match r
       case Whole(tokens) => |Joined(tokens)| == |text|
       case Failed(tokens, f) => FailsAfter(text, reader, tokens, f)
       case NeverEnds(tokens) => StuckAfter(text, reader, tokens)
  }

  /** On a text whose white space is all spaces and newlines the tokenizer ends, and what it returns joins to the text. */
  lemma PlainTextIsKept(text: string, format: Format, r: Outcome)
    requires PlainSpace(text) && IsOutcome(text, ReaderOf(text, format), r)
    ensures !r.NeverEnds? && (r.Whole? ==> Joined(r.tokens) == text)
  {
    var reader := ReaderOf(text, format);
    if r.NeverEnds? {
      NeverStuck(text, format, r.tokens);
    } else if r.Whole? {
      forall n | 0 <= n < |r.tokens| ensures !Slips(text, reader, r.tokens, n) {
        NeverSlips(text, format, r.tokens, n);
      }
      LosslessIff(text, format, r.tokens);
    }
  }

  lemma NeverStuck(text: string, format: Format, tokens: seq<Token>)
    requires PlainSpace(text)
    ensures !StuckAfter(text, ReaderOf(text, format), tokens)
  {
    var at := |Joined(tokens)|;
    if TextStands(text, format, at) {
      PlainSpaceIsSafe(text, format, at);
      StrippedAwayIff(TextRun(text, at));
    }
  }

  lemma NeverSlips(text: string, format: Format, tokens: seq<Token>, n: nat)
    requires PlainSpace(text) && n < |tokens|
    ensures !Slips(text, ReaderOf(text, format), tokens, n)
  {
    if TextStands(text, format, Offset(tokens, n)) {
      PlainSpaceIsSafe(text, format, Offset(tokens, n));
    }
  }

  lemma OffsetsStay(tokens: seq<Token>, t: Token, n: nat)
    requires n <= |tokens|
    ensures Offset(tokens + [t], n) == Offset(tokens, n) && Before(tokens + [t], n) == Before(tokens, n)
  {
    assert (tokens + [t])[..n] == tokens[..n];
    if n > 0 {
      assert (tokens + [t])[..n - 1] == tokens[..n - 1];
    }
  }

  lemma OffsetAtEnd(tokens: seq<Token>, t: Token)
    ensures Offset(tokens, |tokens|) == |Joined(tokens)|
    ensures |Joined(tokens + [t])| == |Joined(tokens)| + |t.s| && Before(tokens + [t], |tokens| + 1) == Some((t, |Joined(tokens)|))
  {
    assert tokens[..|tokens|] == tokens;
    assert (tokens + [t])[..|tokens|] == tokens;
  }

  lemma OneMoreToken(text: string, reader: Reader, tokens: seq<Token>, t: Token)
    requires AllRead(text, reader, tokens) && ReadsAs(text, reader, Before(tokens, |tokens|), t, |Joined(tokens)|)
    ensures AllRead(text, reader, tokens + [t])
  {
    var u := tokens + [t];
    OffsetAtEnd(tokens, t);
    forall n | 0 <= n < |u| ensures ReadsAs(text, reader, Before(u, n), u[n], Offset(u, n)) {
      OffsetsStay(tokens, t, n);
    }
  }

  class Cursor {
    const text: string
    const format: Format
    const reader: Reader
    var i: nat
    var line: nat
    var col: nat

    constructor (text: string, format: Format)
      ensures this.text == text && this.format == format && reader == ReaderOf(text, format) && IsReader(reader, text, format) && i == 0 && Valid()
    {
      this.text, this.format, this.reader := text, format, ReaderOf(text, format);
      i, line, col := 0, 1, 1;
    }

    /** The counters are the position of the offset. */
    ghost predicate Valid()
      reads this
    {
      i <= |text| && line == LineAt(text, i) && col == ColumnAt(text, i)
    }

    method Advance(n: nat)
      requires Valid() && i + n <= |text|
      modifies this
      ensures Valid() && i == old(i) + n
    {
      for k := 0 to n
        invariant Valid() && i == old(i) + k
      {
        i := i + 1;
        assert text[..i][..i - 1] == text[..i - 1];
        if text[i - 1] == '\n' {
          line, col := line + 1, 1;
        } else {
          col := col + 1;
        }
      }
    }

    /** The token text at the cursor; empty if the code block there is, or if plain text is stripped away. */
    method Piece(inCode: bool) returns (r: Result<string, Failure>)
      requires Valid() && i < |text| && IsReader(reader, text, format)
      ensures r.Ok? && r.value != "" ==> Spelled(text, reader, inCode, r.value, i) && (inCode ==> text[i] != '<')
      ensures r.Ok? && r.value == "" && inCode ==> text[i] == '<'
      ensures r.Ok? && r.value == "" && !inCode ==> reader.plain(i) && Strip(TextRun(text, i)) == ""
      ensures r.Err? ==> !inCode && r.error == reader.failure(i) && forall end: nat :: !reader.ends(i, end)
    {
      if inCode {
        var end := GetCode(text, i);
        return Ok(text[i..end]);
      }
      assert reader.plain(i) == TextStands(text, format, i);
      var branch := Look(text, i, format);
      if branch == TextAt {
        var s := GetText(text, i);
        StripShortens(text, i);
        assert EndsAt(text, format, i, i + |s|);
        return Ok(s);
      }
      var end := Scan(branch, text, i, format);
      if end.Err? {
        forall e: nat ensures !reader.ends(i, e) {
          assert !EndsAt(text, format, i, e);
        }
        assert end.error == FailureAt(text, format, i);
        return Err(end.error);
      }
      assert EndsAt(text, format, i, end.value);
      return Ok(text[i..end.value]);
    }

    /** One token of text `s` at the cursor, and whether it opens a code block. */
    method Cut(before: Option<(Token, nat)>, s: string, code: bool) returns (r: Result<Token, Failure>, opens: bool)
      requires Valid() && i < |text| && IsReader(reader, text, format)
      ensures r.Ok? ==> r.value.s == s && r.value.line == LineAt(text, i) && r.value.col == ColumnAt(text, i) && r.value.lineSpan == LineSpan(s)
      ensures r.Ok? ==> opens == (!code && reader.opens(i, s))
      ensures r.Ok? && code ==> r.value.kind == Code && r.value.tag == ""
      ensures r.Ok? && !code ==>
                var named := reader.name(i, s, AfterNewline(before));
                r.value.kind != Code && named.Ok? && named.value.0 == r.value.kind && Strip(named.value.1) == r.value.tag
      ensures r.Err? ==> !code && reader.name(i, s, AfterNewline(before)) == Err(r.error)
    {
      if code {
        return Ok(Token(Code, s, "", line, col, LineSpan(s))), false;
      }
      var named := LabelAt(text, format, i, s, AfterNewline(before));
      opens := CodeTagAt(text, format, i, s);
      if named.Err? {
        return Err(named.error), opens;
      }
      LabelIsNotCode(BranchAt(text, i, format), s, AfterNewline(before));
      r := Ok(Token(named.value.0, s, Strip(named.value.1), line, col, LineSpan(s)));
    }

    /** The flag says whether code is next; it may be set where the code block turns out empty. */
    ghost predicate FlagFits(before: Option<(Token, nat)>, inCode: bool)
      reads this
    {
      && (inCode ==> AfterCodeTag(reader, before))
      && (i < |text| && text[i] != '<' ==> inCode == AfterCodeTag(reader, before))
    }

    /**
    Whatever the text, the tokens are those cut one behind the other.  The tokenizer returns when they reach
    the end of the text; it fails exactly where what is due has no end or no name; and it stays for good
    where plain text is due and only white space stands.
    */
    method Tokenize() returns (r: Outcome)
      requires Valid() && i == 0 && IsReader(reader, text, format)
      modifies this
      ensures IsOutcome(text, reader, r)
    {
      var tokens: seq<Token> := [];
      var before: Option<(Token, nat)> := None;
      var inCode := false;
      while i < |text|
        invariant Valid() && |Joined(tokens)| == i && AllRead(text, reader, tokens)
        invariant before == Before(tokens, |tokens|) && FlagFits(before, inCode)
        decreases |text| - i, inCode
      {
        var piece := Piece(inCode);
        if piece.Err? {
          return Failed(tokens, piece.error);
        }
        var s := piece.value;
        if s == "" {
          if !inCode {
            StrippedAwayIff(TextRun(text, i));
            return NeverEnds(tokens);
          }
          inCode := false;
          continue;
        }
        var t, opens := Cut(before, s, inCode);
        if t.Err? {
          return Failed(tokens, t.error);
        }
        OffsetAtEnd(tokens, t.value);
        OneMoreToken(text, reader, tokens, t.value);
        tokens, before, inCode := tokens + [t.value], Some((t.value, i)), opens;
        Advance(|s|);
      }
      return Whole(tokens);
    }
  }

  lemma StripShortens(text: string, i: nat)
    requires i <= |text|
    ensures i + |Strip(TextRun(text, i))| <= |text|
  {
    RunIsPrefix(text, i);
    StripLeftNoLonger(TextRun(text, i));
    StripRightIsPrefix(StripLeft(TextRun(text, i)));
  }

  lemma {:induction false} StripLeftNoLonger(s: string)
    ensures |StripLeft(s)| <= |s|
  {
    if s != "" && IsSpace(s[0]) {
      StripLeftNoLonger(s[1..]);
    }
  }

  lemma LabelIsNotCode(branch: Branch, s: string, afterNewline: bool)
    ensures Label(branch, s, afterNewline).Ok? ==> Label(branch, s, afterNewline).value.0 != Code
  {
  }
}
