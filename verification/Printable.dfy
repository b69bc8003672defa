/** Which accepted templates the pretty-printer prints. */
module Printable {
  import opened Options
  import opened Tokens
  import opened TagMatcher
  import opened TagLinks
  import opened Layout
  import opened PrettyPrint

  /** A start token the second pass remembers. */
  predicate Live(tokens: seq<Token>, m: Machine, b: nat) {
    b < |tokens| && b in m.endOf && !PassedOver(tokens[b]) && tokens[b].tag != "else"
  }

  /** The closer of `b` is passed over, so that `b` is never forgotten. */
  predicate Unclosed(tokens: seq<Token>, m: Machine, b: nat) {
    b in m.endOf && m.endOf[b] < |tokens| && PassedOver(tokens[m.endOf[b]])
  }

  /** At token `i` the second pass still takes itself to be inside the element that `b` starts. */
  predicate Holds(tokens: seq<Token>, m: Machine, b: nat, i: nat) {
    Live(tokens, m, b) && b < i && (i <= m.endOf[b] || Unclosed(tokens, m, b))
  }

  ghost predicate Closest(tokens: seq<Token>, m: Machine, b: nat, i: nat) {
    Holds(tokens, m, b, i) && forall c: nat :: Holds(tokens, m, c, i) ==> c <= b
  }

  /** A token called else that no element claims. */
  predicate StrayElse(tokens: seq<Token>, m: Machine, i: nat) {
    i < |tokens| && !PassedOver(tokens[i]) && tokens[i].tag == "else" && i !in m.startOf
  }

  /** A start token that begins a line, directly inside an element whose start does not. */
  ghost predicate Stranded(tokens: seq<Token>, m: Machine, i: nat) {
    Live(tokens, m, i) && BeginsLine(tokens, i) && exists b :: Closest(tokens, m, b, i) && !BeginsLine(tokens, b)
  }

  /** An end token the second pass looks at. */
  predicate Ender(tokens: seq<Token>, m: Machine, i: nat) {
    i < |tokens| && i in m.startOf && !PassedOver(tokens[i]) && tokens[i].tag != "else"
  }

  /** An end token whose start is not the one the second pass remembers last. */
  ghost predicate Unmet(tokens: seq<Token>, m: Machine, i: nat) {
    Ender(tokens, m, i) && !Closest(tokens, m, m.startOf[i], i)
  }

  ghost predicate Fine(tokens: seq<Token>, m: Machine, i: nat) {
    !StrayElse(tokens, m, i) && !Stranded(tokens, m, i) && !Unmet(tokens, m, i)
  }

  /** The stack is the start tokens remembered at token `i`, innermost last. */
  ghost predicate IsAround(tokens: seq<Token>, m: Machine, stack: seq<nat>, i: nat) {
    && (forall d, e :: 0 <= d < e < |stack| ==> stack[d] < stack[e])
    && (forall b: nat :: b in stack <==> Holds(tokens, m, b, i))
  }

  lemma TopIsClosest(tokens: seq<Token>, m: Machine, stack: seq<nat>, i: nat)
    requires IsAround(tokens, m, stack, i)
    ensures forall b: nat :: Closest(tokens, m, b, i) <==> Top(stack) == Some(b)
  {
    if stack != [] {
      var top := stack[|stack| - 1];
      assert top in stack;
      forall c: nat | Holds(tokens, m, c, i) ensures c <= top {
        assert c in stack;
      }
    }
  }

  /** Nothing but its own closer ends a live element. */
  lemma OnlyCloserEnds(tokens: seq<Token>, m: Machine, b: nat, i: nat)
    requires WellLinked(TemplateRules(), tokens, m) && Live(tokens, m, b) && m.endOf[b] == i
    ensures i < |tokens| && tokens[i].tag != "else" && i !in m.endOf && i in m.startOf && m.startOf[i] == b
  {
    assert IsStart(TemplateRules(), tokens, b);
    assert Paired(TemplateRules(), tokens, m, b);
  }

  // ---------------------------------------------------------------- one token

  /** The element that ends at `i`, if any, is the one that `i` points at. */
  ghost predicate EndsOwn(tokens: seq<Token>, m: Machine, i: nat) {
    i < |tokens| && forall b: nat :: Live(tokens, m, b) && m.endOf[b] == i ==> tokens[i].tag != "else" && i !in m.endOf && i in m.startOf && m.startOf[i] == b
  }

  lemma OwnEnds(tokens: seq<Token>, m: Machine, i: nat)
    requires WellLinked(TemplateRules(), tokens, m) && i < |tokens|
    ensures EndsOwn(tokens, m, i) && (i in m.endOf ==> i < m.endOf[i] && i !in m.startOf)
    ensures Ender(tokens, m, i) ==> m.startOf[i] in m.endOf && m.endOf[m.startOf[i]] == i
  {
    forall b: nat | Live(tokens, m, b) && m.endOf[b] == i
      ensures tokens[i].tag != "else" && i !in m.endOf && i in m.startOf && m.startOf[i] == b
    {
      OnlyCloserEnds(tokens, m, b, i);
    }
    if i in m.endOf {
      assert IsStart(TemplateRules(), tokens, i) && Paired(TemplateRules(), tokens, m, i);
    }
    if i in m.startOf {
      assert IsEnd(TemplateRules(), tokens, i);
    }
  }

  lemma PushMoves(tokens: seq<Token>, m: Machine, stack: seq<nat>, i: nat)
    requires EndsOwn(tokens, m, i) && IsAround(tokens, m, stack, i) && Live(tokens, m, i) && i < m.endOf[i]
    ensures IsAround(tokens, m, stack + [i], i + 1)
  {
    assert forall d :: 0 <= d < |stack| ==> stack[d] in stack;
  }

  lemma PopMoves(tokens: seq<Token>, m: Machine, stack: seq<nat>, i: nat)
    requires EndsOwn(tokens, m, i) && IsAround(tokens, m, stack, i) && i !in m.endOf && Ender(tokens, m, i)
    requires Top(stack) == Some(m.startOf[i]) && m.startOf[i] in m.endOf && m.endOf[m.startOf[i]] == i
    ensures IsAround(tokens, m, stack[..|stack| - 1], i + 1)
  {
    var below, s := stack[..|stack| - 1], stack[|stack| - 1];
    assert stack == below + [s];
    assert Live(tokens, m, s) by {
      assert s in stack && Holds(tokens, m, s, i);
    }
    forall b: nat ensures Holds(tokens, m, b, i + 1) <==> Holds(tokens, m, b, i) && b != s {
    }
    assert forall b: nat :: b in stack <==> b in below || b == s;
    assert forall d :: 0 <= d < |below| ==> below[d] == stack[d] < s;
    assert s !in below;
  }

  lemma RestMoves(tokens: seq<Token>, m: Machine, stack: seq<nat>, i: nat)
    requires EndsOwn(tokens, m, i) && i < |tokens| && IsAround(tokens, m, stack, i) && !Live(tokens, m, i) && !Ender(tokens, m, i)
    ensures IsAround(tokens, m, stack, i + 1)
  {
    assert forall b: nat :: Holds(tokens, m, b, i + 1) <==> Holds(tokens, m, b, i);
  }

  lemma StackMoves(tokens: seq<Token>, m: Machine, stack: seq<nat>, i: nat)
    requires WellLinked(TemplateRules(), tokens, m) && i < |tokens| && IsAround(tokens, m, stack, i)
    ensures var next := Entered(tokens, m.startOf, m.endOf, stack, i);
            (next.Some? <==> Fine(tokens, m, i)) && (next.Some? ==> IsAround(tokens, m, next.value, i + 1))
  {
    OwnEnds(tokens, m, i);
    TopIsClosest(tokens, m, stack, i);
    StackStep(tokens, m, stack, i);
  }

  lemma StackStep(tokens: seq<Token>, m: Machine, stack: seq<nat>, i: nat)
    requires i < |tokens| && EndsOwn(tokens, m, i) && IsAround(tokens, m, stack, i) && (i in m.endOf ==> i < m.endOf[i] && i !in m.startOf)
    requires Ender(tokens, m, i) ==> m.startOf[i] in m.endOf && m.endOf[m.startOf[i]] == i
    requires forall b: nat :: Closest(tokens, m, b, i) <==> Top(stack) == Some(b)
    ensures var next := Entered(tokens, m.startOf, m.endOf, stack, i);
            (next.Some? <==> Fine(tokens, m, i)) && (next.Some? ==> IsAround(tokens, m, next.value, i + 1))
  {
    if Live(tokens, m, i) {
      PushMoves(tokens, m, stack, i);
    } else if Ender(tokens, m, i) {
      if Top(stack) == Some(m.startOf[i]) {
        PopMoves(tokens, m, stack, i);
      }
    } else {
      RestMoves(tokens, m, stack, i);
    }
  }

  /** The stack holds up at token `n`, if the second pass gets there. */
  ghost predicate HoldsUp(tokens: seq<Token>, m: Machine, n: nat) {
    n <= |tokens| && (Around(tokens, m.startOf, m.endOf, n).Some? ==> IsAround(tokens, m, Around(tokens, m.startOf, m.endOf, n).value, n))
  }

  lemma HoldsUpNext(tokens: seq<Token>, m: Machine, n: nat)
    requires WellLinked(TemplateRules(), tokens, m) && n < |tokens| && HoldsUp(tokens, m, n)
    ensures HoldsUp(tokens, m, n + 1)
  {
    if Around(tokens, m.startOf, m.endOf, n).Some? {
      StackMoves(tokens, m, Around(tokens, m.startOf, m.endOf, n).value, n);
    }
  }

  lemma {:induction false} KeptAround(tokens: seq<Token>, m: Machine, n: nat)
    requires WellLinked(TemplateRules(), tokens, m) && n <= |tokens|
    ensures HoldsUp(tokens, m, n)
  {
    for k := 0 to n
      invariant HoldsUp(tokens, m, k)
    {
      HoldsUpNext(tokens, m, k);
    }
  }

  /** The second pass gets past token `i` if it gets there and the token is fine. */
  ghost predicate Further(tokens: seq<Token>, m: Machine, i: nat) {
    && i < |tokens|
    && (Around(tokens, m.startOf, m.endOf, i + 1).Some? <==> Around(tokens, m.startOf, m.endOf, i).Some? && Fine(tokens, m, i))
  }

  lemma OneFurther(tokens: seq<Token>, m: Machine, i: nat)
    requires WellLinked(TemplateRules(), tokens, m) && i < |tokens|
    ensures Further(tokens, m, i)
  {
    if Around(tokens, m.startOf, m.endOf, i).Some? {
      KeptAround(tokens, m, i);
      StackMoves(tokens, m, Around(tokens, m.startOf, m.endOf, i).value, i);
    }
  }

  lemma {:induction false} AllAlong(goes: nat -> bool, fine: nat -> bool, n: nat)
    requires goes(0) && forall i: nat :: i < n ==> (goes(i + 1) <==> goes(i) && fine(i))
    ensures goes(n) <==> forall i: nat :: i < n ==> fine(i)
  {
    if n > 0 {
      AllAlong(goes, fine, n - 1);
      assert goes(n) <==> goes(n - 1) && fine(n - 1);
    }
  }

  /** How far the second pass gets, and where it may go on, as plain predicates. */
  lemma Steps(tokens: seq<Token>, m: Machine) returns (goes: nat -> bool, fine: nat -> bool)
    requires forall i: nat :: i < |tokens| ==> Further(tokens, m, i)
    ensures goes(0) && forall i: nat :: i < |tokens| ==> (goes(i + 1) <==> goes(i) && fine(i))
    ensures goes(|tokens|) <==> Around(tokens, m.startOf, m.endOf, |tokens|).Some?
    ensures forall i: nat :: fine(i) == Fine(tokens, m, i)
  {
    goes := (i: nat) => i <= |tokens| && Around(tokens, m.startOf, m.endOf, i).Some?;
    fine := (i: nat) => Fine(tokens, m, i);
    forall i: nat | i < |tokens| ensures goes(i + 1) <==> goes(i) && fine(i) {
      assert Further(tokens, m, i);
    }
  }

  lemma SameFine(tokens: seq<Token>, m: Machine, fine: nat -> bool, n: nat)
    requires forall i: nat :: fine(i) == Fine(tokens, m, i)
    ensures (forall i: nat :: i < n ==> fine(i)) <==> forall i: nat :: i < n ==> Fine(tokens, m, i)
  {
  }

  /**
  An accepted template is printed exactly when no token called else is left unclaimed, no start token that
  begins a line stands directly inside an element that begins in the middle of one, and every end token
  meets its own start.  An element counts as open for good if only its closer is called code or pre.
  */
  lemma PrintsIff(tokens: seq<Token>, m: Machine)
    requires WellLinked(TemplateRules(), tokens, m)
    ensures Around(tokens, m.startOf, m.endOf, |tokens|).Some? <==>
              forall i: nat :: i < |tokens| ==> Fine(tokens, m, i)
  {
    forall i: nat | i < |tokens| ensures Further(tokens, m, i) {
      OneFurther(tokens, m, i);
    }
    var goes, fine := Steps(tokens, m);
    AllAlong(goes, fine, |tokens|);
    SameFine(tokens, m, fine, |tokens|);
  }
}
