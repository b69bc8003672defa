/**
The tag matcher of the template checker: a chain of closures, each waiting for the end of one start
tag, against a recursive grammar of balanced templates.
*/
module TagMatcher {
  import opened Options
  import opened Tokens
  import opened TemplateGrammar

  datatype Flavor = Starts | Ends | Neither

  function FlavorOf(t: Token): Flavor {
    match t.kind
    case HandlebarsStart | HandlebarsPartialBlock | HtmlStart => Starts
    case DjangoElse | DjangoEnd | HandlebarsElse | HandlebarsEnd | HtmlEnd | JinjaStrippedEnd => Ends
    case DjangoStart | JinjaStrippedStart | JinjaStrippedType2Start => if t.tag in DJANGO_BLOCKS then Starts else Neither
    case _ => Neither
  }

  function Name(t: Token): string {
    Trim(t.tag, {'~'})
  }

  predicate IsElse(t: Token) {
    t.tag == "else"
  }

  predicate OpensForeign(t: Token) {
    Name(t) == "math" || Name(t) == "svg"
  }

  /** Void tags must be self-closing and no others may be, outside foreign content. */
  predicate VoidRule(t: Token, foreign: bool) {
    foreign || ((t.kind == HtmlStart ==> t.tag !in VOID_TAGS) && (t.kind == HtmlSingleton ==> t.tag in VOID_TAGS))
  }

  datatype Problem = NoStartTag | MissingEnd | CodeSplit | UnexpectedElse | Mismatched | VoidTag

  /** What an end token does to the start token it meets; None if it fits. */
  function Trouble(start: Token, end: Token): Option<Problem> {
    if Name(start) == "code" && end.line == start.line + 1 then Some(CodeSplit)
    else if IsElse(end) then (if Name(start) in {"if", "else", "unless"} then None else Some(UnexpectedElse))
    else if Name(start) != Name(end) then Some(Mismatched)
    else None
  }

  /** What the matcher asks of tokens. */
  datatype Rules = Rules(
    flavor: Token -> Flavor,
    void: (Token, bool) -> bool,
    isElse: Token -> bool,
    foreign: Token -> bool,
    trouble: (Token, Token) -> Option<Problem>)

  function TemplateRules(): Rules {
    Rules(FlavorOf, VoidRule, IsElse, OpensForeign, Trouble)
  }

  /** The rule on void tags is about start and self-closing tags only. */
  ghost predicate Sensible(r: Rules) {
    forall t, foreign :: r.flavor(t).Ends? ==> r.void(t, foreign)
  }

  // ---------------------------------------------------------------- the grammar

  /** `f` may stand inside `parent` (or at top level), with a math or svg tag open around it if `foreign`. */
  predicate Derives(r: Rules, f: Forest, parent: Option<Token>, foreign: bool) {
    match f
    case Nil => true
    case Leaf(t, rest) => r.flavor(t).Neither? && r.void(t, foreign) && Derives(r, rest, parent, foreign)
    case Branch(t, rest) =>
      && r.flavor(t).Ends? && r.isElse(t) && parent.Some? && r.trouble(parent.value, t).None?
      && Derives(r, rest, parent, foreign)
    case Element(start, body, end, rest) =>
      && r.flavor(start).Starts? && r.void(start, foreign)
      && r.flavor(end).Ends? && !r.isElse(end) && r.trouble(start, end).None?
      && Derives(r, body, Some(start), foreign || r.foreign(start))
      && Derives(r, rest, parent, foreign)
  }

  // ---------------------------------------------------------------- the machine

  /** The closure now in place: it remembers its start token and what it replaced. */
  datatype Matcher = Bottom | Waiting(start: nat, outer: Matcher, wasForeign: bool)

  datatype Machine = Machine(depth: int, foreign: bool, matcher: Matcher, startOf: map<nat, nat>, endOf: map<nat, nat>)

  function Fresh(): Machine {
    Machine(0, false, Bottom, map[], map[])
  }

  predicate Bound(m: Matcher, n: nat) {
    m.Waiting? ==> m.start < n && Bound(m.outer, n)
  }

  function Opened(r: Rules, m: Machine, t: Token, i: nat): Machine {
    m.(depth := m.depth + 1, foreign := m.foreign || r.foreign(t), matcher := Waiting(i, m.matcher, m.foreign))
  }

  function Met(r: Rules, m: Machine, tokens: seq<Token>, i: nat): Result<Machine, Problem>
    requires i < |tokens| && Bound(m.matcher, i)
  {
    match m.matcher
    case Bottom => Err(NoStartTag)
    case Waiting(start, outer, wasForeign) =>
      match r.trouble(tokens[start], tokens[i])
      case Some(p) => Err(p)
      case None =>
        var linked := m.(startOf := m.startOf[i := start], endOf := m.endOf[start := i]);
        Ok(if r.isElse(tokens[i]) then linked else linked.(matcher := outer, foreign := wasForeign, depth := m.depth - 1))
  }

  function Fed(r: Rules, m: Machine, tokens: seq<Token>, i: nat): Result<Machine, Problem>
    requires i < |tokens| && Bound(m.matcher, i)
  {
    var t := tokens[i];
    if !r.void(t, m.foreign) then Err(VoidTag)
    else match r.flavor(t)
      case Starts => Ok(Opened(r, m, t, i))
      case Ends => Met(r, m, tokens, i)
      case Neither => Ok(m)
  }

  lemma FedBound(r: Rules, m: Machine, tokens: seq<Token>, i: nat)
    requires i < |tokens| && Bound(m.matcher, i)
    ensures Fed(r, m, tokens, i).Ok? ==> Bound(Fed(r, m, tokens, i).value.matcher, i + 1)
  {
    BoundGrows(m.matcher, i);
  }

  lemma BoundGrows(m: Matcher, n: nat)
    requires Bound(m, n)
    ensures Bound(m, n + 1) && (m.Waiting? ==> Bound(m.outer, n + 1))
  {
    if m.Waiting? {
      BoundGrows(m.outer, n);
    }
  }

  /** The machine from token `i` to the end; a tag still open there is missing its end. */
  function Rest(r: Rules, m: Machine, tokens: seq<Token>, i: nat): Result<Machine, Problem>
    requires i <= |tokens| && Bound(m.matcher, i)
    decreases |tokens| - i
  {
    if i == |tokens| then (if m.depth != 0 then Err(MissingEnd) else Ok(m))
    else
      match Fed(r, m, tokens, i)
      case Err(p) => Err(p)
      case Ok(m') => FedBound(r, m, tokens, i); Rest(r, m', tokens, i + 1)
  }

  function Depth(m: Matcher): nat {
    if m.Bottom? then 0 else Depth(m.outer) + 1
  }

  class Checker {
    const r: Rules
    var depth: int
    var foreign: bool
    var matcher: Matcher
    var startOf: map<nat, nat>
    var endOf: map<nat, nat>

    constructor ()
      ensures r == TemplateRules() && Value() == Fresh()
    {
      r := TemplateRules();
      depth, foreign, matcher, startOf, endOf := 0, false, Bottom, map[], map[];
    }

    function Value(): Machine
      reads this
    {
      Machine(depth, foreign, matcher, startOf, endOf)
    }

    method StartTagMatcher(t: Token, i: nat)
      modifies this
      ensures Value() == Opened(r, old(Value()), t, i)
    {
      depth := depth + 1;
      matcher := Waiting(i, matcher, foreign);
      if r.foreign(t) {
        foreign := true;
      }
    }

    method Match(tokens: seq<Token>, i: nat) returns (result: Result<(), Problem>)
      requires i < |tokens| && Bound(matcher, i)
      modifies this
      ensures match Met(r, old(Value()), tokens, i)
              case Ok(m) => result == Ok(()) && Value() == m
              case Err(p) => result == Err(p)
      ensures r == TemplateRules() ==>
                (result.Ok? <==> old(matcher).Waiting? && Fits(tokens[old(matcher).start], tokens[i]))
    {
      if matcher.Waiting? {
        TroubleIff(tokens[matcher.start], tokens[i]);
      }
      if matcher.Bottom? {
        return Err(NoStartTag);
      }
      var start := matcher.start;
      var trouble := r.trouble(tokens[start], tokens[i]);
      if trouble.Some? {
        return Err(trouble.value);
      }
      if !r.isElse(tokens[i]) {
        matcher, foreign, depth := matcher.outer, matcher.wasForeign, depth - 1;
      }
      startOf, endOf := startOf[i := start], endOf[start := i];
      return Ok(());
    }

    /** The loop over all tokens is the machine. */
    method Validate(tokens: seq<Token>) returns (result: Result<(), Problem>)
      requires Value() == Fresh()
      modifies this
      ensures match Rest(r, Fresh(), tokens, 0)
              case Ok(m) => result == Ok(()) && Value() == m
              case Err(p) => result == Err(p)
      ensures r == TemplateRules() ==> (result.Ok? <==> IsTemplate(tokens))
    {
      MatcherIsGrammar(tokens);
      var i := 0;
      while i < |tokens|
        invariant i <= |tokens| && Bound(matcher, i)
        invariant Rest(r, Value(), tokens, i) == Rest(r, Fresh(), tokens, 0)
      {
        FedBound(r, Value(), tokens, i);
        if !r.void(tokens[i], foreign) {
          return Err(VoidTag);
        }
        match r.flavor(tokens[i]) {
          case Starts => StartTagMatcher(tokens[i], i);
          case Ends =>
            var met := Match(tokens, i);
            if met.Err? {
              return Err(met.error);
            }
          case Neither =>
        }
        i := i + 1;
      }
      if depth != 0 {
        return Err(MissingEnd);
      }
      return Ok(());
    }
  }

  // ---------------------------------------------------------------- the machine accepts what the grammar generates

  /** Two machines that wait for the same and differ at most in the links made. */
  ghost predicate SameWait(a: Machine, b: Machine) {
    a.depth == b.depth && a.foreign == b.foreign && a.matcher == b.matcher
  }

  function Parent(m: Matcher, tokens: seq<Token>): Option<Token>
    requires Bound(m, |tokens|)
  {
    if m.Bottom? then None else Some(tokens[m.start])
  }

  lemma BoundWider(m: Matcher, i: nat, n: nat)
    requires Bound(m, i) && i <= n
    ensures Bound(m, n)
  {
    if m.Waiting? {
      BoundWider(m.outer, i, n);
    }
  }

  /** Standing in front of what a forest yields, the machine comes out behind it waiting for what it waited for. */
  lemma {:induction false} ForestPasses(r: Rules, f: Forest, tokens: seq<Token>, i: nat, m: Machine) returns (m': Machine)
    requires Sensible(r)
    requires i + |Yield(f)| <= |tokens| && tokens[i..i + |Yield(f)|] == Yield(f)
    requires Bound(m.matcher, i) && Bound(m.matcher, |tokens|)
    requires Derives(r, f, Parent(m.matcher, tokens), m.foreign)
    ensures SameWait(m, m') && Bound(m'.matcher, i + |Yield(f)|)
    ensures Rest(r, m, tokens, i) == Rest(r, m', tokens, i + |Yield(f)|)
    decreases f, 1
  {
    match f
    case Nil =>
      m' := m;
    case Leaf(t, rest) =>
      m' := LeafPasses(r, t, rest, tokens, i, m);
    case Branch(t, rest) =>
      m' := BranchPasses(r, t, rest, tokens, i, m);
    case Element(start, body, end, rest) =>
      m' := ElementReads(r, start, body, end, rest, tokens, i, m);
  }

  lemma {:induction false} ElementReads(r: Rules, start: Token, body: Forest, end: Token, rest: Forest, tokens: seq<Token>, i: nat, m: Machine)
    returns (m': Machine)
    requires Sensible(r)
    requires i + |Yield(body)| + |Yield(rest)| + 2 <= |tokens|
    requires tokens[i..i + |Yield(body)| + |Yield(rest)| + 2] == [start] + Yield(body) + [end] + Yield(rest)
    requires Bound(m.matcher, i) && Bound(m.matcher, |tokens|)
    requires r.flavor(start).Starts? && r.void(start, m.foreign)
    requires r.flavor(end).Ends? && !r.isElse(end) && r.trouble(start, end).None?
    requires Derives(r, body, Some(start), m.foreign || r.foreign(start)) && Derives(r, rest, Parent(m.matcher, tokens), m.foreign)
    ensures SameWait(m, m') && Bound(m'.matcher, i + |Yield(body)| + |Yield(rest)| + 2)
    ensures Rest(r, m, tokens, i) == Rest(r, m', tokens, i + |Yield(body)| + |Yield(rest)| + 2)
    decreases Element(start, body, end, rest), 0
  {
    Pieces(tokens, i, start, Yield(body), end, Yield(rest));
    m' := ElementPasses(r, body, rest, tokens, i, i + 1 + |Yield(body)|, m);
  }

  lemma {:induction false} LeafPasses(r: Rules, t: Token, rest: Forest, tokens: seq<Token>, i: nat, m: Machine) returns (m': Machine)
    requires Sensible(r) && i + 1 + |Yield(rest)| <= |tokens| && tokens[i..i + 1 + |Yield(rest)|] == [t] + Yield(rest)
    requires Bound(m.matcher, i) && Bound(m.matcher, |tokens|) && r.flavor(t).Neither? && r.void(t, m.foreign)
    requires Derives(r, rest, Parent(m.matcher, tokens), m.foreign)
    ensures SameWait(m, m') && Bound(m'.matcher, i + 1 + |Yield(rest)|) && Rest(r, m, tokens, i) == Rest(r, m', tokens, i + 1 + |Yield(rest)|)
    decreases Leaf(t, rest), 0
  {
    FirstOfSlice(tokens, i, t, Yield(rest));
    LeafStep(r, m, tokens, i);
    m' := ForestPasses(r, rest, tokens, i + 1, m);
  }

  lemma {:induction false} BranchPasses(r: Rules, t: Token, rest: Forest, tokens: seq<Token>, i: nat, m: Machine) returns (m': Machine)
    requires Sensible(r) && i + 1 + |Yield(rest)| <= |tokens| && tokens[i..i + 1 + |Yield(rest)|] == [t] + Yield(rest)
    requires Bound(m.matcher, i) && Bound(m.matcher, |tokens|) && m.matcher.Waiting?
    requires r.flavor(t).Ends? && r.isElse(t) && r.trouble(tokens[m.matcher.start], t).None?
    requires Derives(r, rest, Parent(m.matcher, tokens), m.foreign)
    ensures SameWait(m, m') && Bound(m'.matcher, i + 1 + |Yield(rest)|) && Rest(r, m, tokens, i) == Rest(r, m', tokens, i + 1 + |Yield(rest)|)
    decreases Branch(t, rest), 0
  {
    FirstOfSlice(tokens, i, t, Yield(rest));
    var m1 := BranchStep(r, m, tokens, i);
    m' := ForestPasses(r, rest, tokens, i + 1, m1);
  }

  /** Reading a token that is neither start nor end. */
  lemma LeafStep(r: Rules, m: Machine, tokens: seq<Token>, i: nat)
    requires i < |tokens| && Bound(m.matcher, i) && r.flavor(tokens[i]).Neither? && r.void(tokens[i], m.foreign)
    ensures Bound(m.matcher, i + 1) && Rest(r, m, tokens, i) == Rest(r, m, tokens, i + 1)
  {
    BoundGrows(m.matcher, i);
  }

  /** Reading an else. */
  lemma BranchStep(r: Rules, m: Machine, tokens: seq<Token>, i: nat) returns (m1: Machine)
    requires Sensible(r) && i < |tokens| && Bound(m.matcher, i) && m.matcher.Waiting?
    requires r.flavor(tokens[i]).Ends? && r.isElse(tokens[i]) && r.trouble(tokens[m.matcher.start], tokens[i]).None?
    ensures SameWait(m, m1) && Bound(m1.matcher, i + 1) && Rest(r, m, tokens, i) == Rest(r, m1, tokens, i + 1)
  {
    BoundGrows(m.matcher, i);
    m1 := Met(r, m, tokens, i).value;
  }

  lemma FirstOfSlice<T>(all: seq<T>, i: nat, first: T, rest: seq<T>)
    requires i + 1 + |rest| <= |all| && all[i..i + |[first] + rest|] == [first] + rest
    ensures all[i] == first && all[i + 1..i + 1 + |rest|] == rest
  {
    var part := all[i..i + 1 + |rest|];
    assert all[i] == part[0];
    assert all[i + 1..i + 1 + |rest|] == part[1..];
  }

  /** A tag from `i` to its end at `k`, and the forest behind it. */
  lemma {:induction false} ElementPasses(r: Rules, body: Forest, rest: Forest, tokens: seq<Token>, i: nat, k: nat, m: Machine) returns (m': Machine)
    requires Sensible(r)
    requires k == i + 1 + |Yield(body)| && k + 1 + |Yield(rest)| <= |tokens|
    requires tokens[i + 1..k] == Yield(body) && tokens[k + 1..k + 1 + |Yield(rest)|] == Yield(rest)
    requires Bound(m.matcher, i) && Bound(m.matcher, |tokens|)
    requires r.flavor(tokens[i]).Starts? && r.void(tokens[i], m.foreign)
    requires r.flavor(tokens[k]).Ends? && !r.isElse(tokens[k]) && r.trouble(tokens[i], tokens[k]).None?
    requires Derives(r, body, Some(tokens[i]), m.foreign || r.foreign(tokens[i])) && Derives(r, rest, Parent(m.matcher, tokens), m.foreign)
    ensures SameWait(m, m') && Bound(m'.matcher, k + 1 + |Yield(rest)|)
    ensures Rest(r, m, tokens, i) == Rest(r, m', tokens, k + 1 + |Yield(rest)|)
    decreases Element(tokens[i], body, tokens[k], rest), 0, 0
  {
    var m3 := TagPasses(r, body, tokens, i, k, m);
    m' := ForestPasses(r, rest, tokens, k + 1, m3);
  }

  /** A start tag at `i`, a forest, and the end tag at `k`. */
  lemma {:induction false} TagPasses(r: Rules, body: Forest, tokens: seq<Token>, i: nat, k: nat, m: Machine) returns (m': Machine)
    requires Sensible(r)
    requires i < k < |tokens| && k == i + 1 + |Yield(body)| && tokens[i + 1..k] == Yield(body)
    requires Bound(m.matcher, i) && Bound(m.matcher, |tokens|)
    requires r.flavor(tokens[i]).Starts? && r.void(tokens[i], m.foreign)
    requires r.flavor(tokens[k]).Ends? && !r.isElse(tokens[k]) && r.trouble(tokens[i], tokens[k]).None?
    requires Derives(r, body, Some(tokens[i]), m.foreign || r.foreign(tokens[i]))
    ensures SameWait(m, m') && Bound(m'.matcher, k + 1) && Rest(r, m, tokens, i) == Rest(r, m', tokens, k + 1)
    decreases body, 2
  {
    var m1 := OpenStep(r, m, tokens, i);
    var m2 := ForestPasses(r, body, tokens, i + 1, m1);
    m' := CloseStep(r, m, m2, tokens, i, k);
  }

  lemma Pieces<T>(all: seq<T>, i: nat, start: T, body: seq<T>, end: T, rest: seq<T>)
    requires i + |body| + |rest| + 2 <= |all| && all[i..i + |body| + |rest| + 2] == [start] + body + [end] + rest
    ensures all[i] == start && all[i + 1..i + 1 + |body|] == body
    ensures all[i + 1 + |body|] == end && all[i + 2 + |body|..i + |body| + |rest| + 2] == rest
  {
    var part := all[i..i + |body| + |rest| + 2];
    assert forall x :: 0 <= x < |part| ==> all[i + x] == part[x];
    assert all[i + 1 + |body|] == part[1 + |body|];
    assert all[i] == part[0];
    forall x | 0 <= x < |body| ensures all[i + 1..i + 1 + |body|][x] == body[x] {
      assert all[i + (1 + x)] == part[1 + x];
    }
    forall x | 0 <= x < |rest| ensures all[i + 2 + |body|..i + |body| + |rest| + 2][x] == rest[x] {
      assert all[i + (2 + |body| + x)] == part[2 + |body| + x];
    }
  }

  /** Reading a start tag. */
  lemma OpenStep(r: Rules, m: Machine, tokens: seq<Token>, i: nat) returns (m1: Machine)
    requires i < |tokens| && Bound(m.matcher, i) && r.flavor(tokens[i]).Starts? && r.void(tokens[i], m.foreign)
    ensures m1 == Opened(r, m, tokens[i], i) && Bound(m1.matcher, i + 1) && Bound(m1.matcher, |tokens|)
    ensures Rest(r, m, tokens, i) == Rest(r, m1, tokens, i + 1)
  {
    FedBound(r, m, tokens, i);
    m1 := Opened(r, m, tokens[i], i);
    BoundWider(m1.matcher, i + 1, |tokens|);
  }

  /** Reading the end at `k` of the tag opened at `i`: the machine waits again for what it waited for before. */
  lemma CloseStep(r: Rules, m: Machine, m2: Machine, tokens: seq<Token>, i: nat, k: nat) returns (m3: Machine)
    requires Sensible(r)
    requires i < k < |tokens| && SameWait(Opened(r, m, tokens[i], i), m2) && Bound(m2.matcher, k) && Bound(m.matcher, |tokens|)
    requires r.flavor(tokens[k]).Ends? && !r.isElse(tokens[k]) && r.trouble(tokens[i], tokens[k]).None?
    ensures SameWait(m, m3) && Bound(m3.matcher, k + 1)
    ensures Rest(r, m2, tokens, k) == Rest(r, m3, tokens, k + 1)
  {
    FedBound(r, m2, tokens, k);
    m3 := Met(r, m2, tokens, k).value;
  }

  // ---------------------------------------------------------------- the grammar generates what the machine accepts

  ghost predicate Sound(m: Machine) {
    m.depth == Depth(m.matcher)
  }

  /** What an accepting machine reads next is a forest, up to the end of the tag it waits for. */
  lemma {:induction false} AcceptedIsForest(r: Rules, tokens: seq<Token>, i: nat, m: Machine) returns (f: Forest, j: nat, m': Machine)
    requires Sensible(r)
    requires i <= |tokens| && Bound(m.matcher, i) && Bound(m.matcher, |tokens|) && Sound(m) && Rest(r, m, tokens, i).Ok?
    ensures i <= j <= |tokens| && tokens[i..j] == Yield(f) && Derives(r, f, Parent(m.matcher, tokens), m.foreign)
    ensures SameWait(m, m') && Bound(m'.matcher, j) && Rest(r, m, tokens, i) == Rest(r, m', tokens, j)
    ensures if m.matcher.Bottom? then j == |tokens|
            else j < |tokens| && r.flavor(tokens[j]).Ends? && !r.isElse(tokens[j]) && r.trouble(tokens[m.matcher.start], tokens[j]).None?
    decreases |tokens| - i
  {
    if i == |tokens| {
      f, j, m' := Nil, i, m;
    } else {
      var t := tokens[i];
      FedBound(r, m, tokens, i);
      BoundGrows(m.matcher, i);
      match r.flavor(t)
      case Neither =>
        f, j, m' := AcceptedIsForest(r, tokens, i + 1, m);
        assert tokens[i..j] == [t] + tokens[i + 1..j];
        f := Leaf(t, f);
      case Starts =>
        f, j, m' := AcceptedElement(r, tokens, i, m);
      case Ends =>
        if r.isElse(t) {
          f, j, m' := AcceptedIsForest(r, tokens, i + 1, Met(r, m, tokens, i).value);
          assert tokens[i..j] == [t] + tokens[i + 1..j];
          f := Branch(t, f);
        } else {
          f, j, m' := Nil, i, m;
        }
    }
  }

  lemma {:induction false} AcceptedElement(r: Rules, tokens: seq<Token>, i: nat, m: Machine) returns (f: Forest, j: nat, m': Machine)
    requires Sensible(r)
    requires i < |tokens| && Bound(m.matcher, i) && Bound(m.matcher, |tokens|) && Sound(m) && Rest(r, m, tokens, i).Ok?
    requires r.flavor(tokens[i]).Starts? && r.void(tokens[i], m.foreign)
    ensures i <= j <= |tokens| && tokens[i..j] == Yield(f) && Derives(r, f, Parent(m.matcher, tokens), m.foreign)
    ensures SameWait(m, m') && Bound(m'.matcher, j) && Rest(r, m, tokens, i) == Rest(r, m', tokens, j)
    ensures if m.matcher.Bottom? then j == |tokens|
            else j < |tokens| && r.flavor(tokens[j]).Ends? && !r.isElse(tokens[j]) && r.trouble(tokens[m.matcher.start], tokens[j]).None?
    decreases |tokens| - i, 0
  {
    var m1 := OpenStep(r, m, tokens, i);
    var body, k, m2 := AcceptedIsForest(r, tokens, i + 1, m1);
    var m3 := CloseStep(r, m, m2, tokens, i, k);
    var rest, j', m4 := AcceptedIsForest(r, tokens, k + 1, m3);
    f := Grown(r, tokens, i, body, k, rest, j', m.foreign, Parent(m.matcher, tokens));
    j, m' := j', m4;
  }

  lemma Grown(r: Rules, tokens: seq<Token>, i: nat, body: Forest, k: nat, rest: Forest, j: nat, foreign: bool, parent: Option<Token>) returns (f: Forest)
    requires i < k < j <= |tokens|
    requires tokens[i + 1..k] == Yield(body) && tokens[k + 1..j] == Yield(rest)
    requires r.flavor(tokens[i]).Starts? && r.void(tokens[i], foreign)
    requires r.flavor(tokens[k]).Ends? && !r.isElse(tokens[k]) && r.trouble(tokens[i], tokens[k]).None?
    requires Derives(r, body, Some(tokens[i]), foreign || r.foreign(tokens[i])) && Derives(r, rest, parent, foreign)
    ensures tokens[i..j] == Yield(f) && Derives(r, f, parent, foreign)
  {
    f := Element(tokens[i], body, tokens[k], rest);
    assert tokens[i..j] == [tokens[i]] + tokens[i + 1..k] + [tokens[k]] + tokens[k + 1..j];
  }

  lemma AcceptsIffDerives(r: Rules, tokens: seq<Token>)
    requires Sensible(r)
    ensures Rest(r, Fresh(), tokens, 0).Ok? <==> exists f :: Derives(r, f, None, false) && Yield(f) == tokens
  {
    if Rest(r, Fresh(), tokens, 0).Ok? {
      var f, j, m := AcceptedIsForest(r, tokens, 0, Fresh());
      assert tokens[0..j] == tokens;
      assert Derives(r, f, None, false) && Yield(f) == tokens;
    }
    if f :| Derives(r, f, None, false) && Yield(f) == tokens {
      assert tokens[0..|tokens|] == tokens;
      var m := ForestPasses(r, f, tokens, 0, Fresh());
    }
  }

  // ---------------------------------------------------------------- the rules are those of templates

  lemma FlavorIs(t: Token)
    ensures (FlavorOf(t).Starts? <==> Opening(t)) && (FlavorOf(t).Ends? <==> Closing(t))
  {
  }

  /** An end token fits the start it meets: an else where one may stand, any other with the name of the start. */
  ghost predicate Fits(start: Token, end: Token) {
    !SplitCode(start, end) && if end.tag == "else" then TakesElse(start) else NamesAgree(start.tag, end.tag)
  }

  lemma TroubleIff(start: Token, end: Token)
    ensures Trouble(start, end).None? <==> Fits(start, end)
  {
    NameIs(start.tag, "code");
    NameIs(start.tag, "if");
    NameIs(start.tag, "else");
    NameIs(start.tag, "unless");
    NameIs(start.tag, Name(end));
    NameIs(end.tag, Name(end));
    if name :| Named(start.tag, name) && Named(end.tag, name) {
      NameIs(start.tag, name);
      NameIs(end.tag, name);
    }
  }

  /** What takes an else is no code element. */
  lemma ElseFits(start: Token, end: Token)
    requires end.tag == "else"
    ensures Fits(start, end) <==> TakesElse(start)
  {
    NameIs(start.tag, "code");
    NameIs(start.tag, "if");
    NameIs(start.tag, "else");
    NameIs(start.tag, "unless");
    assert "code"[0] != "if"[0] && "code"[0] != "else"[0] && "code"[0] != "unless"[0];
  }

  lemma ForeignIff(t: Token)
    ensures OpensForeign(t) <==> Named(t.tag, "math") || Named(t.tag, "svg")
  {
    NameIs(t.tag, "math");
    NameIs(t.tag, "svg");
  }

  lemma OneMoreAround(around: seq<Token>, t: Token)
    ensures InForeign(around + [t]) <==> InForeign(around) || OpensForeign(t)
  {
    ForeignIff(t);
    var more := around + [t];
    assert forall k :: 0 <= k < |around| ==> more[k] == around[k];
    assert more[|around|] == t;
  }

  function InnermostOf(around: seq<Token>): Option<Token> {
    if around == [] then None else Some(around[|around| - 1])
  }

  /** With the rules written out, what the machine's grammar derives is a template. */
  lemma {:induction false} RulesAreGrammar(f: Forest, around: seq<Token>)
    ensures Template(f, around) <==> Derives(TemplateRules(), f, InnermostOf(around), InForeign(around))
  {
    match f
    case Nil =>
    case Leaf(t, rest) =>
      FlavorIs(t);
      RulesAreGrammar(rest, around);
    case Branch(t, rest) =>
      BranchRules(t, around);
      RulesAreGrammar(rest, around);
    case Element(start, body, end, rest) =>
      ElementRules(start, end, InForeign(around));
      OneMoreAround(around, start);
      RulesAreGrammar(body, around + [start]);
      RulesAreGrammar(rest, around);
  }

  lemma BranchRules(t: Token, around: seq<Token>)
    ensures var r := TemplateRules();
            r.flavor(t).Ends? && r.isElse(t) && around != [] && r.trouble(around[|around| - 1], t).None? <==>
              Closing(t) && t.tag == "else" && around != [] && TakesElse(around[|around| - 1])
  {
    FlavorIs(t);
    if around != [] {
      TroubleIff(around[|around| - 1], t);
      if t.tag == "else" {
        ElseFits(around[|around| - 1], t);
      }
    }
  }

  lemma ElementRules(start: Token, end: Token, foreign: bool)
    ensures var r := TemplateRules();
            r.flavor(start).Starts? && r.void(start, foreign) && r.flavor(end).Ends? && !r.isElse(end) && r.trouble(start, end).None? <==>
              && Opening(start) && Closing(end) && end.tag != "else" && NamesAgree(start.tag, end.tag) && !SplitCode(start, end)
              && (start.kind == HtmlStart && start.tag in VOID_TAGS ==> foreign)
  {
    FlavorIs(start);
    FlavorIs(end);
    TroubleIff(start, end);
  }

  /** The matcher accepts exactly the templates the grammar generates. */
  lemma MatcherIsGrammar(tokens: seq<Token>)
    ensures Rest(TemplateRules(), Fresh(), tokens, 0).Ok? <==> IsTemplate(tokens)
  {
    var r := TemplateRules();
    AcceptsIffDerives(r, tokens);
    if f :| Derives(r, f, None, false) && Yield(f) == tokens {
      RulesAreGrammar(f, []);
    }
    if f :| Template(f, []) && Yield(f) == tokens {
      RulesAreGrammar(f, []);
    }
  }
}
