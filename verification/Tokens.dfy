/** Tokens of an HTML, Handlebars or Django template, and the trimming of their texts. */
module Tokens {
  datatype Kind =
    | Code | DjangoComment | HandlebarsComment | HandlebarsPartial | HtmlComment | HtmlDoctype | HtmlSingleton
    | Indent | Newline | TemplateVar | Text | Whitespace | HandlebarsTripleStache
    | HandlebarsStart | HandlebarsPartialBlock | HtmlStart
    | DjangoElse | DjangoEnd | HandlebarsElse | HandlebarsEnd | HtmlEnd | JinjaStrippedEnd
    | DjangoStart | JinjaStrippedStart | JinjaStrippedType2Start

  datatype Token = Token(kind: Kind, s: string, tag: string, line: int, col: int, lineSpan: nat)

  function TrimLeft(s: string, cut: set<char>): string {
    if s != "" && s[0] in cut then TrimLeft(s[1..], cut) else s
  }

  function TrimRight(s: string, cut: set<char>): string {
    if s != "" && s[|s| - 1] in cut then TrimRight(s[..|s| - 1], cut) else s
  }

  function Trim(s: string, cut: set<char>): string {
    TrimRight(TrimLeft(s, cut), cut)
  }
}
