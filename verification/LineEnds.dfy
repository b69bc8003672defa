/**
A text up to the white space at the two ends of its lines.

Two texts with the same settled form have the same lines, in the same number and with the same white
space inside them; they differ at most in how the lines are indented and in what trails them.
*/
module LineEnds {
  import opened Scanners

  /** Where in a line a reader stands: before anything solid, or behind it with some white space pending. */
  datatype Place = Start | Within(pending: string)

  function Enter(c: char, q: Place): Place {
    if c == '\n' then Start
    else if IsSpace(c) then (if q.Start? then Start else Within(q.pending + [c]))
    else Within("")
  }

  function Emit(c: char, q: Place): string {
    if c == '\n' then "\n"
    else if IsSpace(c) then ""
    else (if q.Start? then "" else q.pending) + [c]
  }

  function Place1(s: string, q: Place): Place {
    if s == "" then q else Place1(s[1..], Enter(s[0], q))
  }

  function Settled1(s: string, q: Place): string {
    if s == "" then "" else Emit(s[0], q) + Settled1(s[1..], Enter(s[0], q))
  }

  /** The text without the white space at either end of any line. */
  function Settled(s: string): string {
    Settled1(s, Start)
  }

  lemma {:induction false} SettledJoin(a: string, b: string, q: Place)
    ensures Place1(a + b, q) == Place1(b, Place1(a, q))
    ensures Settled1(a + b, q) == Settled1(a, q) + Settled1(b, Place1(a, q))
  {
    if a == "" {
      assert a + b == b;
    } else {
      assert (a + b)[1..] == a[1..] + b;
      SettledJoin(a[1..], b, Enter(a[0], q));
    }
  }

  /** White space without a newline. */
  predicate IsIndent(s: string) {
    forall k :: 0 <= k < |s| ==> IsSpace(s[k]) && s[k] != '\n'
  }

  lemma {:induction false} IndentVanishes(s: string)
    requires IsIndent(s)
    ensures Place1(s, Start) == Start && Settled1(s, Start) == ""
  {
    if s != "" {
      IndentVanishes(s[1..]);
    }
  }

  lemma IndentInFront(indent: string, s: string)
    requires IsIndent(indent)
    ensures Place1(indent + s, Start) == Place1(s, Start) && Settled1(indent + s, Start) == Settled1(s, Start)
  {
    IndentVanishes(indent);
    SettledJoin(indent, s, Start);
  }

  predicate OneLine(s: string) {
    '\n' !in s
  }

  lemma {:induction false} StripLeftSettles(s: string)
    requires OneLine(s)
    ensures OneLine(StripLeft(s)) && Place1(StripLeft(s), Start) == Place1(s, Start) && Settled1(StripLeft(s), Start) == Settled1(s, Start)
  {
    if s != "" && IsSpace(s[0]) {
      StripLeftSettles(s[1..]);
    }
  }

  lemma {:induction false} StripRightSettles(s: string, q: Place)
    requires OneLine(s)
    ensures OneLine(StripRight(s)) && Settled1(StripRight(s), q) == Settled1(s, q)
    ensures s != "" && !IsSpace(s[|s| - 1]) ==> StripRight(s) == s
  {
    if s != "" && IsSpace(s[|s| - 1]) {
      var t, last := s[..|s| - 1], [s[|s| - 1]];
      assert s == t + last;
      SettledJoin(t, last, q);
      StripRightSettles(t, q);
    }
  }

  /** At the start of a line, stripping a fragment loses at most what trails it. */
  lemma StripSettles(s: string)
    requires OneLine(s)
    ensures OneLine(Strip(s)) && Settled1(Strip(s), Start) == Settled1(s, Start)
    ensures s != "" && !IsSpace(s[|s| - 1]) ==> Place1(Strip(s), Start) == Place1(s, Start)
  {
    StripLeftSettles(s);
    StripRightSettles(StripLeft(s), Start);
    if s != "" && !IsSpace(s[|s| - 1]) {
      StripLeftKeepsEnd(s);
    }
  }

  lemma {:induction false} StripLeftKeepsEnd(s: string)
    requires s != "" && !IsSpace(s[|s| - 1])
    ensures StripLeft(s) != "" && !IsSpace(StripLeft(s)[|StripLeft(s)| - 1])
  {
    if IsSpace(s[0]) {
      StripLeftKeepsEnd(s[1..]);
    }
  }

  /** A line behind a stripped fragment is the line behind the fragment. */
  lemma NewlineAfter(s: string, q: Place)
    ensures Settled1(s + "\n", q) == Settled1(s, q) + "\n" && Place1(s + "\n", q) == Start
  {
    SettledJoin(s, "\n", q);
    var p := Place1(s, q);
    assert Settled1("\n", p) == Emit('\n', p) + Settled1("", Start);
  }

  // ---------------------------------------------------------------- all white space

  function Solid(s: string): string {
    if s == "" then "" else (if IsSpace(s[0]) then "" else [s[0]]) + Solid(s[1..])
  }

  lemma {:induction false} SolidJoin(a: string, b: string)
    ensures Solid(a + b) == Solid(a) + Solid(b)
  {
    if a == "" {
      assert a + b == b;
    } else {
      assert (a + b)[1..] == a[1..] + b;
      SolidJoin(a[1..], b);
    }
  }

  predicate AllSpace(s: string) {
    forall k :: 0 <= k < |s| ==> IsSpace(s[k])
  }

  lemma {:induction false} SolidSpace(s: string)
    requires AllSpace(s)
    ensures Solid(s) == ""
  {
    if s != "" {
      SolidSpace(s[1..]);
    }
  }

  /** The settled form keeps every solid character. */
  lemma {:induction false} SettledKeepsSolid(s: string, q: Place)
    requires q.Within? ==> AllSpace(q.pending)
    ensures Solid(Settled1(s, q)) == Solid(s)
  {
    if s != "" {
      SettledKeepsSolid(s[1..], Enter(s[0], q));
      SolidJoin(Emit(s[0], q), Settled1(s[1..], Enter(s[0], q)));
      EmitSolid(s[0], q);
    }
  }

  lemma EmitSolid(c: char, q: Place)
    requires q.Within? ==> AllSpace(q.pending)
    ensures Solid(Emit(c, q)) == if IsSpace(c) then "" else [c]
  {
    if !IsSpace(c) {
      var before := if q.Start? then "" else q.pending;
      SolidJoin(before, [c]);
      SolidSpace(before);
      assert [c][1..] == "";
    }
  }
}
