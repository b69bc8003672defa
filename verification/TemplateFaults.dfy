/**
When the tag matcher stops: it reads on exactly while what it has read can still be completed to a
template, and misses an end tag exactly when a template was broken off.
*/
module TemplateFaults {
  import opened Options
  import opened Tokens
  import opened TemplateGrammar
  import opened TagMatcher

  /** Some continuation makes a template of the tokens. */
  ghost predicate Completable(tokens: seq<Token>) {
    exists more: seq<Token> :: IsTemplate(tokens + more)
  }

  /** The machine behind the last token, or the fault it met on the way. */
  function Through(r: Rules, m: Machine, tokens: seq<Token>, i: nat): Result<Machine, Problem>
    requires i <= |tokens| && Bound(m.matcher, i)
    decreases |tokens| - i
  {
    if i == |tokens| then Ok(m)
    else
      match Fed(r, m, tokens, i)
      case Err(p) => Err(p)
      case Ok(m') => FedBound(r, m, tokens, i); Through(r, m', tokens, i + 1)
  }

  /** Whatever follows, the tokens are read in the same way, or fail in the same way. */
  lemma {:induction false} ThroughThenRest(r: Rules, m: Machine, tokens: seq<Token>, i: nat, more: seq<Token>)
    requires i <= |tokens| && Bound(m.matcher, i)
    ensures Through(r, m, tokens, i).Ok? ==>
              && Bound(Through(r, m, tokens, i).value.matcher, |tokens|)
              && Rest(r, m, tokens + more, i) == Rest(r, Through(r, m, tokens, i).value, tokens + more, |tokens|)
    ensures Through(r, m, tokens, i).Err? ==> Rest(r, m, tokens + more, i) == Err(Through(r, m, tokens, i).error)
    decreases |tokens| - i
  {
    if i < |tokens| {
      FedAlike(r, m, tokens, more, i);
      FedBound(r, m, tokens, i);
      FedBound(r, m, tokens + more, i);
      if Fed(r, m, tokens, i).Ok? {
        ThroughThenRest(r, Fed(r, m, tokens, i).value, tokens, i + 1, more);
      }
    }
  }

  lemma FedAlike(r: Rules, m: Machine, tokens: seq<Token>, more: seq<Token>, i: nat)
    requires i < |tokens| && Bound(m.matcher, i)
    ensures Fed(r, m, tokens + more, i) == Fed(r, m, tokens, i)
  {
    assert (tokens + more)[i] == tokens[i];
    assert m.matcher.Waiting? ==> (tokens + more)[m.matcher.start] == tokens[m.matcher.start];
  }

  lemma {:induction false} ThroughSound(m: Machine, tokens: seq<Token>, i: nat)
    requires i <= |tokens| && Bound(m.matcher, i) && Sound(m)
    ensures Through(TemplateRules(), m, tokens, i).Ok? ==> Sound(Through(TemplateRules(), m, tokens, i).value)
    ensures Through(TemplateRules(), m, tokens, i).Err? ==> Through(TemplateRules(), m, tokens, i).error != MissingEnd
    decreases |tokens| - i
  {
    if i < |tokens| {
      FedBound(TemplateRules(), m, tokens, i);
      if Fed(TemplateRules(), m, tokens, i).Ok? {
        ThroughSound(Fed(TemplateRules(), m, tokens, i).value, tokens, i + 1);
      }
    }
  }

  // ---------------------------------------------------------------- completing what was broken off

  /** A closing tag for the element: its name behind a tilde, so that it is never taken for an else. */
  function Closer(start: Token): Token {
    Token(HtmlEnd, "", "~" + Name(start), start.line, 0, 1)
  }

  lemma CloserFits(start: Token)
    ensures var end := Closer(start);
            Closing(end) && end.tag != "else" && Trouble(start, end).None? && VoidRule(end, false) && VoidRule(end, true)
  {
    var end := Closer(start);
    assert end.tag[0] == '~' && "else"[0] == 'e';
    NameIs(start.tag, Name(start));
    var i: nat :| NamedFrom(start.tag, Name(start), i);
    assert NamedFrom(end.tag, Name(start), 1);
    NameIs(end.tag, Name(start));
  }

  /** One more closing tag, and the machine waits for one element less. */
  lemma CloseOne(m: Machine, tokens: seq<Token>) returns (m': Machine)
    requires Bound(m.matcher, |tokens|) && Sound(m) && m.matcher.Waiting?
    ensures var all := tokens + [Closer(tokens[m.matcher.start])];
            && Fed(TemplateRules(), m, all, |tokens|) == Ok(m')
            && Bound(m'.matcher, |all|) && Sound(m') && m'.matcher == m.matcher.outer
  {
    var all := tokens + [Closer(tokens[m.matcher.start])];
    CloserFits(tokens[m.matcher.start]);
    assert all[|tokens|] == Closer(tokens[m.matcher.start]) && all[m.matcher.start] == tokens[m.matcher.start];
    FedBound(TemplateRules(), m, all, |tokens|);
    m' := Met(TemplateRules(), m, all, |tokens|).value;
  }

  /** Closing tags for everything open complete the template. */
  lemma {:induction false} Completes(m: Machine, tokens: seq<Token>) returns (more: seq<Token>)
    requires Bound(m.matcher, |tokens|) && Sound(m)
    ensures Rest(TemplateRules(), m, tokens + more, |tokens|).Ok?
    decreases m.matcher
  {
    if m.matcher.Bottom? {
      more := [];
      assert tokens + more == tokens;
    } else {
      var t := Closer(tokens[m.matcher.start]);
      var m' := CloseOne(m, tokens);
      var others := Completes(m', tokens + [t]);
      more := [t] + others;
      assert tokens + more == (tokens + [t]) + others;
      FedAlike(TemplateRules(), m, tokens + [t], others, |tokens|);
    }
  }

  /** The matcher reads on exactly while what it has read can still become a template. */
  lemma ReadsWhileCompletable(tokens: seq<Token>)
    ensures Through(TemplateRules(), Fresh(), tokens, 0).Ok? <==> Completable(tokens)
  {
    var r := TemplateRules();
    var end := Through(r, Fresh(), tokens, 0);
    ThroughSound(Fresh(), tokens, 0);
    if end.Ok? {
      ThroughThenRest(r, Fresh(), tokens, 0, []);
      var more := Completes(end.value, tokens);
      ThroughThenRest(r, Fresh(), tokens, 0, more);
      MatcherIsGrammar(tokens + more);
    } else if more :| IsTemplate(tokens + more) {
      ThroughThenRest(r, Fresh(), tokens, 0, more);
      MatcherIsGrammar(tokens + more);
    }
  }

  /** A missing end tag is reported for the templates that were broken off, and for nothing else. */
  lemma MissingEndIffBrokenOff(tokens: seq<Token>)
    ensures Rest(TemplateRules(), Fresh(), tokens, 0) == Err(MissingEnd) <==> !IsTemplate(tokens) && Completable(tokens)
  {
    ReadsWhileCompletable(tokens);
    MatcherIsGrammar(tokens);
    ThroughSound(Fresh(), tokens, 0);
    ThroughThenRest(TemplateRules(), Fresh(), tokens, 0, []);
    assert tokens + [] == tokens;
  }
}
