/** The links the tag matcher leaves on the tokens of an accepted template. */
module TagLinks {
  import opened Options
  import opened Tokens
  import opened TemplateGrammar
  import opened TagMatcher

  predicate IsStart(r: Rules, tokens: seq<Token>, a: nat) {
    a < |tokens| && r.flavor(tokens[a]).Starts?
  }

  predicate IsEnd(r: Rules, tokens: seq<Token>, a: nat) {
    a < |tokens| && r.flavor(tokens[a]).Ends?
  }

  function Open(m: Matcher): set<nat> {
    if m.Bottom? then {} else Open(m.outer) + {m.start}
  }

  /** Inner tags were opened later. */
  predicate Climbs(m: Matcher) {
    m.Waiting? ==> Climbs(m.outer) && (m.outer.Waiting? ==> m.outer.start < m.start)
  }

  lemma {:induction false} InnermostIsLast(m: Matcher)
    requires Climbs(m) && m.Waiting?
    ensures forall a: nat :: a in Open(m) ==> a <= m.start
    ensures m.start !in Open(m.outer)
  {
    if m.outer.Waiting? {
      InnermostIsLast(m.outer);
    }
  }

  /** The start at `a` and its true closer point at each other, and fit. */
  ghost predicate Paired(r: Rules, tokens: seq<Token>, m: Machine, a: nat) {
    && a in m.endOf && a < m.endOf[a] && IsEnd(r, tokens, m.endOf[a]) && !r.isElse(tokens[m.endOf[a]])
    && m.endOf[a] in m.startOf && m.startOf[m.endOf[a]] == a
    && a < |tokens| && r.trouble(tokens[a], tokens[m.endOf[a]]).None?
  }

  ghost predicate StartsPaired(r: Rules, tokens: seq<Token>, i: nat, m: Machine) {
    forall a: nat :: a < i && IsStart(r, tokens, a) && a !in Open(m.matcher) ==> Paired(r, tokens, m, a) && m.endOf[a] < i
  }

  /** An element is over before a later one starts, or contains it. */
  ghost predicate Apart(m: Machine, a: nat, b: nat) {
    a in m.endOf && (m.endOf[a] < b || (b !in Open(m.matcher) && b in m.endOf && m.endOf[b] < m.endOf[a]))
  }

  ghost predicate Nested(r: Rules, tokens: seq<Token>, i: nat, m: Machine) {
    forall a: nat, b: nat :: a < b < i && IsStart(r, tokens, a) && IsStart(r, tokens, b) && a !in Open(m.matcher) ==> Apart(m, a, b)
  }

  /** Every element started between `s` and `j` is over before `j`. */
  ghost predicate Innermost(r: Rules, tokens: seq<Token>, m: Machine, s: nat, j: nat) {
    forall b :: s < b < j && IsStart(r, tokens, b) ==> b !in Open(m.matcher) && b in m.endOf && m.endOf[b] < j
  }

  /** An end token points at its start; an else at the element it stands directly inside. */
  ghost predicate EndLinked(r: Rules, tokens: seq<Token>, m: Machine, j: nat) {
    && j < |tokens| && j in m.startOf && m.startOf[j] < j && IsStart(r, tokens, m.startOf[j])
    && r.trouble(tokens[m.startOf[j]], tokens[j]).None?
    && Innermost(r, tokens, m, m.startOf[j], j)
    && (if r.isElse(tokens[j])
        then m.startOf[j] !in Open(m.matcher) ==> m.startOf[j] in m.endOf && j < m.endOf[m.startOf[j]]
        else m.startOf[j] !in Open(m.matcher) && m.startOf[j] in m.endOf && m.endOf[m.startOf[j]] == j)
  }

  ghost predicate EndsLinked(r: Rules, tokens: seq<Token>, i: nat, m: Machine) {
    forall j: nat :: j < i && IsEnd(r, tokens, j) ==> EndLinked(r, tokens, m, j)
  }

  /** Only start and end tokens carry links. */
  ghost predicate OnlyTags(r: Rules, tokens: seq<Token>, i: nat, m: Machine) {
    && (forall j: nat :: j in m.startOf ==> j < i && IsEnd(r, tokens, j))
    && (forall a: nat :: a in m.endOf ==> a < i && IsStart(r, tokens, a))
    && (forall a: nat :: a in Open(m.matcher) ==> a < i && IsStart(r, tokens, a))
  }

  ghost predicate Linked(r: Rules, tokens: seq<Token>, i: nat, m: Machine) {
    && Climbs(m.matcher) && OnlyTags(r, tokens, i, m) && StartsPaired(r, tokens, i, m)
    && Nested(r, tokens, i, m) && EndsLinked(r, tokens, i, m)
  }

  // ---------------------------------------------------------------- one token

  lemma PlainLinked(r: Rules, tokens: seq<Token>, i: nat, m: Machine)
    requires i < |tokens| && Linked(r, tokens, i, m) && r.flavor(tokens[i]).Neither?
    ensures Linked(r, tokens, i + 1, m)
  {
  }

  lemma StartLinked(r: Rules, tokens: seq<Token>, i: nat, m: Machine)
    requires i < |tokens| && Linked(r, tokens, i, m) && r.flavor(tokens[i]).Starts?
    ensures Linked(r, tokens, i + 1, Opened(r, m, tokens[i], i))
  {
    var m' := Opened(r, m, tokens[i], i);
    assert Open(m'.matcher) == Open(m.matcher) + {i};
    forall j: nat | j < i + 1 && IsEnd(r, tokens, j) ensures EndLinked(r, tokens, m', j) {
      assert EndLinked(r, tokens, m, j);
      assert Innermost(r, tokens, m', m.startOf[j], j);
    }
    forall a: nat, b: nat | a < b < i + 1 && IsStart(r, tokens, a) && IsStart(r, tokens, b) && a !in Open(m'.matcher) ensures Apart(m', a, b) {
      assert Paired(r, tokens, m, a) && m.endOf[a] < i;
      if b < i {
        assert Apart(m, a, b);
      }
    }
  }

  /** At an end token everything started after the innermost open tag is over. */
  lemma InsideIsOver(r: Rules, tokens: seq<Token>, i: nat, m: Machine)
    requires i < |tokens| && Linked(r, tokens, i, m) && m.matcher.Waiting?
    ensures m.matcher.start in Open(m.matcher) && m.matcher.start < i && IsStart(r, tokens, m.matcher.start)
    ensures Innermost(r, tokens, m, m.matcher.start, i)
  {
    InnermostIsLast(m.matcher);
    forall b | m.matcher.start < b < i && IsStart(r, tokens, b) ensures b !in Open(m.matcher) && b in m.endOf && m.endOf[b] < i {
      assert Paired(r, tokens, m, b) && m.endOf[b] < i;
    }
  }

  ghost predicate Ending(r: Rules, tokens: seq<Token>, i: nat, m: Machine) {
    && i < |tokens| && Linked(r, tokens, i, m) && r.flavor(tokens[i]).Ends? && m.matcher.Waiting? && Bound(m.matcher, i)
    && r.trouble(tokens[m.matcher.start], tokens[i]).None?
  }

  lemma ElseEndsLinked(r: Rules, tokens: seq<Token>, i: nat, m: Machine)
    requires Ending(r, tokens, i, m) && r.isElse(tokens[i])
    ensures EndsLinked(r, tokens, i + 1, Met(r, m, tokens, i).value)
  {
    var m' := Met(r, m, tokens, i).value;
    InsideIsOver(r, tokens, i, m);
    forall j: nat | j < i + 1 && IsEnd(r, tokens, j) ensures EndLinked(r, tokens, m', j) {
      if j < i {
        assert EndLinked(r, tokens, m, j);
        assert Innermost(r, tokens, m', m.startOf[j], j);
      } else {
        assert Innermost(r, tokens, m', m.matcher.start, i);
      }
    }
  }

  lemma ElseStartsPaired(r: Rules, tokens: seq<Token>, i: nat, m: Machine)
    requires Ending(r, tokens, i, m) && r.isElse(tokens[i])
    ensures StartsPaired(r, tokens, i + 1, Met(r, m, tokens, i).value)
  {
    var m' := Met(r, m, tokens, i).value;
    forall a: nat | a < i + 1 && IsStart(r, tokens, a) && a !in Open(m'.matcher) ensures Paired(r, tokens, m', a) && m'.endOf[a] < i + 1 {
      assert Paired(r, tokens, m, a) && m.endOf[a] < i;
    }
  }

  lemma ElseNested(r: Rules, tokens: seq<Token>, i: nat, m: Machine)
    requires Ending(r, tokens, i, m) && r.isElse(tokens[i])
    ensures Nested(r, tokens, i + 1, Met(r, m, tokens, i).value)
  {
    var m' := Met(r, m, tokens, i).value;
    forall a: nat, b: nat | a < b < i + 1 && IsStart(r, tokens, a) && IsStart(r, tokens, b) && a !in Open(m'.matcher) ensures Apart(m', a, b) {
      assert Apart(m, a, b);
    }
  }

  lemma ElseLinked(r: Rules, tokens: seq<Token>, i: nat, m: Machine)
    requires Ending(r, tokens, i, m) && r.isElse(tokens[i])
    ensures Linked(r, tokens, i + 1, Met(r, m, tokens, i).value)
  {
    InsideIsOver(r, tokens, i, m);
    ElseEndsLinked(r, tokens, i, m);
    ElseStartsPaired(r, tokens, i, m);
    ElseNested(r, tokens, i, m);
  }

  lemma EndClosed(r: Rules, tokens: seq<Token>, i: nat, m: Machine)
    requires Ending(r, tokens, i, m) && !r.isElse(tokens[i])
    ensures var m' := Met(r, m, tokens, i).value;
            && OnlyTags(r, tokens, i + 1, m') && Climbs(m'.matcher) && Open(m'.matcher) == Open(m.matcher) - {m.matcher.start}
            && StartsPaired(r, tokens, i + 1, m')
  {
    var m' := Met(r, m, tokens, i).value;
    InsideIsOver(r, tokens, i, m);
    InnermostIsLast(m.matcher);
    forall a: nat | a < i + 1 && IsStart(r, tokens, a) && a !in Open(m'.matcher) ensures Paired(r, tokens, m', a) && m'.endOf[a] < i + 1 {
      if a != m.matcher.start {
        assert Paired(r, tokens, m, a) && m.endOf[a] < i;
      }
    }
  }

  lemma EndNested(r: Rules, tokens: seq<Token>, i: nat, m: Machine)
    requires Ending(r, tokens, i, m) && !r.isElse(tokens[i])
    ensures Nested(r, tokens, i + 1, Met(r, m, tokens, i).value)
  {
    var m' := Met(r, m, tokens, i).value;
    var s := m.matcher.start;
    InsideIsOver(r, tokens, i, m);
    EndClosed(r, tokens, i, m);
    forall a: nat, b: nat | a < b < i + 1 && IsStart(r, tokens, a) && IsStart(r, tokens, b) && a !in Open(m'.matcher) ensures Apart(m', a, b) {
      if a != s {
        assert Apart(m, a, b);
      }
    }
  }

  lemma EndEndsLinked(r: Rules, tokens: seq<Token>, i: nat, m: Machine)
    requires Ending(r, tokens, i, m) && !r.isElse(tokens[i])
    ensures EndsLinked(r, tokens, i + 1, Met(r, m, tokens, i).value)
  {
    var m' := Met(r, m, tokens, i).value;
    InsideIsOver(r, tokens, i, m);
    EndClosed(r, tokens, i, m);
    forall j: nat | j < i + 1 && IsEnd(r, tokens, j) ensures EndLinked(r, tokens, m', j) {
      if j < i {
        assert EndLinked(r, tokens, m, j);
        assert Innermost(r, tokens, m', m.startOf[j], j);
      } else {
        assert Innermost(r, tokens, m', m.matcher.start, i);
      }
    }
  }

  lemma FedLinked(r: Rules, tokens: seq<Token>, i: nat, m: Machine)
    requires i < |tokens| && Bound(m.matcher, i) && Linked(r, tokens, i, m) && Fed(r, m, tokens, i).Ok?
    ensures Linked(r, tokens, i + 1, Fed(r, m, tokens, i).value)
  {
    match r.flavor(tokens[i])
    case Neither => PlainLinked(r, tokens, i, m);
    case Starts => StartLinked(r, tokens, i, m);
    case Ends =>
      if r.isElse(tokens[i]) {
        ElseLinked(r, tokens, i, m);
      } else {
        EndClosed(r, tokens, i, m);
        EndNested(r, tokens, i, m);
        EndEndsLinked(r, tokens, i, m);
      }
  }

  lemma {:induction false} RestLinked(r: Rules, tokens: seq<Token>, i: nat, m: Machine)
    requires i <= |tokens| && Bound(m.matcher, i) && Linked(r, tokens, i, m) && Sound(m) && Rest(r, m, tokens, i).Ok?
    ensures Linked(r, tokens, |tokens|, Rest(r, m, tokens, i).value) && Rest(r, m, tokens, i).value.matcher.Bottom?
    decreases |tokens| - i
  {
    if i < |tokens| {
      FedBound(r, m, tokens, i);
      FedLinked(r, tokens, i, m);
      RestLinked(r, tokens, i + 1, Fed(r, m, tokens, i).value);
    }
  }

  /** Starts and true closers point at each other, properly nested; an else points at its element; nothing else is linked. */
  ghost predicate WellLinked(r: Rules, tokens: seq<Token>, m: Machine) {
    && (forall a: nat :: a in m.endOf <==> IsStart(r, tokens, a))
    && (forall j: nat :: j in m.startOf <==> IsEnd(r, tokens, j))
    && (forall a: nat :: IsStart(r, tokens, a) ==> Paired(r, tokens, m, a))
    && (forall a: nat, b: nat :: a < b && IsStart(r, tokens, a) && IsStart(r, tokens, b) ==> Disjoint(m, a, b))
    && (forall j: nat :: IsEnd(r, tokens, j) ==> if r.isElse(tokens[j]) then ElseInside(r, tokens, m, j) else Closes(r, tokens, m, j))
  }

  predicate Closes(r: Rules, tokens: seq<Token>, m: Machine, j: nat) {
    j in m.startOf && m.startOf[j] < j && IsStart(r, tokens, m.startOf[j]) && m.startOf[j] in m.endOf && m.endOf[m.startOf[j]] == j
  }

  predicate Disjoint(m: Machine, a: nat, b: nat) {
    a in m.endOf && b in m.endOf && (m.endOf[a] < b || m.endOf[b] < m.endOf[a])
  }

  ghost predicate ElseInside(r: Rules, tokens: seq<Token>, m: Machine, j: nat) {
    && j in m.startOf && m.startOf[j] in m.endOf && m.startOf[j] < j < m.endOf[m.startOf[j]]
    && Innermost(r, tokens, m, m.startOf[j], j)
  }

  lemma AllLinked(r: Rules, tokens: seq<Token>, m: Machine)
    requires Linked(r, tokens, |tokens|, m) && m.matcher.Bottom?
    ensures WellLinked(r, tokens, m)
  {
    forall j: nat | IsEnd(r, tokens, j)
      ensures if r.isElse(tokens[j]) then ElseInside(r, tokens, m, j) else Closes(r, tokens, m, j)
    {
      assert EndLinked(r, tokens, m, j);
    }
    forall a: nat | IsStart(r, tokens, a) ensures Paired(r, tokens, m, a) {
    }
    forall a: nat, b: nat | a < b && IsStart(r, tokens, a) && IsStart(r, tokens, b) ensures Disjoint(m, a, b) {
      assert Apart(m, a, b) && Paired(r, tokens, m, b);
    }
  }

  /** What the links say of one token. */
  lemma LinksAt(r: Rules, tokens: seq<Token>, m: Machine, a: nat)
    requires WellLinked(r, tokens, m)
    ensures (a in m.endOf <==> IsStart(r, tokens, a)) && (a in m.startOf <==> IsEnd(r, tokens, a))
    ensures IsStart(r, tokens, a) ==> a < m.endOf[a] && IsEnd(r, tokens, m.endOf[a]) && m.startOf[m.endOf[a]] == a
    ensures IsEnd(r, tokens, a) && !r.isElse(tokens[a]) ==> IsStart(r, tokens, m.startOf[a]) && m.endOf[m.startOf[a]] == a
  {
    if IsStart(r, tokens, a) {
      assert Paired(r, tokens, m, a);
    }
  }

  lemma AcceptedLinks(r: Rules, tokens: seq<Token>)
    requires Rest(r, Fresh(), tokens, 0).Ok?
    ensures WellLinked(r, tokens, Rest(r, Fresh(), tokens, 0).value)
  {
    RestLinked(r, tokens, 0, Fresh());
    AllLinked(r, tokens, Rest(r, Fresh(), tokens, 0).value);
  }

  /** Opening tokens have an end, closing tokens a start, and the two fit. */
  ghost predicate TagsFit(tokens: seq<Token>, m: Machine) {
    && (forall a: nat :: a in m.endOf <==> a < |tokens| && Opening(tokens[a]))
    && (forall j: nat :: j in m.startOf <==> j < |tokens| && Closing(tokens[j]))
    && (forall j: nat :: j in m.startOf ==> m.startOf[j] < j < |tokens| && Fits(tokens[m.startOf[j]], tokens[j]))
  }

  lemma LinkedTagsFit(tokens: seq<Token>, m: Machine)
    requires Linked(TemplateRules(), tokens, |tokens|, m) && WellLinked(TemplateRules(), tokens, m)
    ensures TagsFit(tokens, m)
  {
    forall a: nat | a < |tokens| ensures (IsStart(TemplateRules(), tokens, a) <==> Opening(tokens[a])) && (IsEnd(TemplateRules(), tokens, a) <==> Closing(tokens[a])) {
      FlavorIs(tokens[a]);
    }
    forall j: nat | j in m.startOf ensures m.startOf[j] < j < |tokens| && Fits(tokens[m.startOf[j]], tokens[j]) {
      assert EndLinked(TemplateRules(), tokens, m, j);
      TroubleIff(tokens[m.startOf[j]], tokens[j]);
    }
  }

  /** The links left by the matcher on an accepted template. */
  lemma AcceptedIsLinked(tokens: seq<Token>)
    requires Rest(TemplateRules(), Fresh(), tokens, 0).Ok?
    ensures WellLinked(TemplateRules(), tokens, Rest(TemplateRules(), Fresh(), tokens, 0).value)
    ensures TagsFit(tokens, Rest(TemplateRules(), Fresh(), tokens, 0).value)
  {
    AcceptedLinks(TemplateRules(), tokens);
    RestLinked(TemplateRules(), tokens, 0, Fresh());
    LinkedTagsFit(tokens, Rest(TemplateRules(), Fresh(), tokens, 0).value);
  }
}
