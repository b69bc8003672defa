/**
Moving a group under another parent.  Agent groups and target groups are checked by the same bounded
walk up the hierarchy, so one model serves both.
*/
module GroupHierarchy {
  import opened Options

  const MAX_GROUP_DEPTH := 64

  datatype Node = Node(realm: string, parent: Option<string>, archived: bool)

  type Groups = map<string, Node>

  datatype MoveError = NotFound | RealmBoundary | ResourceState | OwnParent | BelowDescendant | TooDeep

  /** `n` steps up from group `g`. */
  function Up(t: Groups, g: string, n: nat): Option<string> {
    if n == 0 then Some(g)
    else
      match Up(t, g, n - 1)
      case None => None
      case Some(h) => if h in t then t[h].parent else None
  }

  /** Every walk up ends. */
  ghost predicate Rooted(t: Groups) {
    forall g :: g in t ==> exists n :: Up(t, g, n).None?
  }

  /** Parents exist and share the child's realm. */
  ghost predicate ParentsInRealm(t: Groups) {
    forall g :: g in t && t[g].parent.Some? ==> t[g].parent.value in t && t[t[g].parent.value].realm == t[g].realm
  }

  lemma {:induction false} UpAdds(t: Groups, g: string, m: nat, n: nat)
    requires Up(t, g, m).Some?
    ensures Up(t, g, m + n) == Up(t, Up(t, g, m).value, n)
  {
    if n > 0 {
      UpAdds(t, g, m, n - 1);
    }
  }

  lemma {:induction false} UpStaysNone(t: Groups, g: string, m: nat, n: nat)
    requires m <= n && Up(t, g, m).None?
    ensures Up(t, g, n).None?
  {
    if m < n {
      UpStaysNone(t, g, m, n - 1);
    }
  }

  lemma {:induction false} UpCycles(t: Groups, g: string, n: nat, m: nat)
    requires n > 0 && Up(t, g, n) == Some(g)
    ensures Up(t, g, n * m) == Some(g)
  {
    if m > 0 {
      UpCycles(t, g, n, m - 1);
      UpAdds(t, g, n * (m - 1), n);
      assert n * m == n * (m - 1) + n;
    }
  }

  lemma Multiple(n: nat, k: nat)
    requires n > 0
    ensures k <= n * k
  {
  }

  /** A rooted hierarchy has no cycle. */
  lemma RootedHasNoCycle(t: Groups, g: string, n: nat)
    requires Rooted(t) && g in t && n > 0
    ensures Up(t, g, n) != Some(g)
  {
    var k :| Up(t, g, k).None?;
    if Up(t, g, n) == Some(g) {
      CycleNeverEnds(t, g, n, k);
    }
  }

  lemma CycleNeverEnds(t: Groups, g: string, n: nat, k: nat)
    requires n > 0 && Up(t, g, n) == Some(g)
    ensures Up(t, g, k).Some?
  {
    UpCycles(t, g, n, k);
    Multiple(n, k);
    if Up(t, g, k).None? {
      UpStaysNone(t, g, k, n * k);
    }
  }

  /** The walk from `p` ends after `k` steps without meeting `g`. */
  ghost predicate EndsBefore(t: Groups, g: string, p: string, k: nat) {
    Up(t, p, k).None? && forall j :: 0 <= j < k ==> Up(t, p, j) != Some(g)
  }

  function Moved(t: Groups, g: string, parent: Option<string>): Groups
    requires g in t
  {
    t[g := t[g].(parent := parent)]
  }

  lemma {:induction false} UpAvoiding(t: Groups, g: string, parent: Option<string>, x: string, n: nat)
    requires g in t && forall j :: 0 <= j < n ==> Up(t, x, j) != Some(g)
    ensures Up(Moved(t, g, parent), x, n) == Up(t, x, n)
  {
    if n > 0 {
      UpAvoiding(t, g, parent, x, n - 1);
    }
  }

  /** Where the moved group now leads. */
  lemma MovedGroupIsRooted(t: Groups, g: string, parent: Option<string>, k: nat)
    requires g in t && (parent.Some? ==> EndsBefore(t, g, parent.value, k))
    ensures Up(Moved(t, g, parent), g, k + 1).None?
  {
    var t' := Moved(t, g, parent);
    assert Up(t', g, 0) == Some(g);
    assert Up(t', g, 1) == parent;
    if parent.Some? {
      UpAvoiding(t, g, parent, parent.value, k);
      UpAdds(t', g, 1, k);
    } else {
      UpStaysNone(t', g, 1, k + 1);
    }
  }

  /** A move whose walk ended keeps the hierarchy free of cycles. */
  lemma MoveKeepsRooted(t: Groups, g: string, parent: Option<string>, k: nat)
    requires Rooted(t) && g in t && (parent.Some? ==> EndsBefore(t, g, parent.value, k))
    ensures Rooted(Moved(t, g, parent))
  {
    var t' := Moved(t, g, parent);
    forall x | x in t' ensures exists n :: Up(t', x, n).None? {
      var n :| Up(t, x, n).None?;
      var m := EndAfterMove(t, g, parent, k, x, n);
    }
  }

  lemma EndAfterMove(t: Groups, g: string, parent: Option<string>, k: nat, x: string, n: nat) returns (m: nat)
    requires g in t && (parent.Some? ==> EndsBefore(t, g, parent.value, k)) && Up(t, x, n).None?
    ensures Up(Moved(t, g, parent), x, m).None?
  {
    var t' := Moved(t, g, parent);
    if j: nat :| j < n && Up(t, x, j) == Some(g) {
      var i := FirstMeeting(t, g, x, j);
      UpAvoiding(t, g, parent, x, i);
      MovedGroupIsRooted(t, g, parent, k);
      m := i + (k + 1);
      UpAdds(t', x, i, k + 1);
    } else {
      UpAvoiding(t, g, parent, x, n);
      m := n;
    }
  }

  lemma {:induction false} FirstMeeting(t: Groups, g: string, x: string, j: nat) returns (i: nat)
    requires Up(t, x, j) == Some(g)
    ensures i <= j && Up(t, x, i) == Some(g) && forall h :: 0 <= h < i ==> Up(t, x, h) != Some(g)
  {
    if h: nat :| h < j && Up(t, x, h) == Some(g) {
      i := FirstMeeting(t, g, x, h);
    } else {
      i := j;
    }
  }

  class GroupTable {
    var groups: Groups

    constructor ()
      ensures groups == map[]
    {
      groups := map[];
    }

    /** Succeeds exactly when the walk from `p` ends within the depth limit without meeting `g`. */
    method AssertParent(g: string, p: string) returns (r: Result<(), MoveError>)
      requires ParentsInRealm(groups)
      ensures g !in groups || p !in groups ==> r == Err(NotFound)
      ensures g in groups && p in groups ==>
                if groups[p].realm != groups[g].realm then r == Err(RealmBoundary)
                else if groups[g].archived || groups[p].archived then r == Err(ResourceState)
                else if p == g then r == Err(OwnParent)
                else
                  && (r.Ok? <==> exists k :: 1 <= k <= MAX_GROUP_DEPTH && EndsBefore(groups, g, p, k))
                  && (r == Err(BelowDescendant) <==> exists j :: 1 <= j <= MAX_GROUP_DEPTH && Up(groups, p, j) == Some(g))
                  && (r.Ok? || r == Err(BelowDescendant) || r == Err(TooDeep))
    {
      if g !in groups || p !in groups {
        return Err(NotFound);
      }
      if groups[p].realm != groups[g].realm {
        return Err(RealmBoundary);
      }
      if groups[g].archived || groups[p].archived {
        return Err(ResourceState);
      }
      if p == g {
        return Err(OwnParent);
      }
      var current := p;
      for i := 0 to MAX_GROUP_DEPTH
        invariant current in groups && groups[current].realm == groups[g].realm
        invariant Up(groups, p, i) == Some(current)
        invariant forall j :: 0 <= j <= i ==> Up(groups, p, j).Some? && Up(groups, p, j) != Some(g)
      {
        assert Up(groups, p, i + 1) == groups[current].parent;
        if groups[current].parent.None? {
          assert EndsBefore(groups, g, p, i + 1);
          EndedWalk(groups, g, p, i + 1);
          return Ok(());
        }
        if groups[current].parent.value == g {
          WalkMeets(groups, g, p, i + 1);
          return Err(BelowDescendant);
        }
        current := groups[current].parent.value;
      }
      return Err(TooDeep);
    }

    method Move(g: string, parent: Option<string>) returns (r: Result<(), MoveError>)
      requires ParentsInRealm(groups) && Rooted(groups) && g in groups
      modifies this
      ensures ParentsInRealm(groups) && Rooted(groups)
      ensures groups == if r.Ok? then Moved(old(groups), g, parent) else old(groups)
      ensures r.Ok? ==> groups.Keys == old(groups).Keys && groups[g].parent == parent
                        && forall h :: h in groups && h != g ==> groups[h] == old(groups)[h]
      ensures parent.None? ==> r.Ok?
      ensures parent.Some? && parent.value in old(groups) ==>
                var p := parent.value;
                (r.Ok? <==> && old(groups)[p].realm == old(groups)[g].realm && !old(groups)[g].archived && !old(groups)[p].archived && p != g
                            && exists k :: 1 <= k <= MAX_GROUP_DEPTH && EndsBefore(old(groups), g, p, k))
    {
      if parent.Some? {
        r := AssertParent(g, parent.value);
        if r.Err? {
          return;
        }
        ghost var k :| 1 <= k <= MAX_GROUP_DEPTH && EndsBefore(groups, g, parent.value, k);
        MoveKeepsRooted(groups, g, parent, k);
      } else {
        MoveKeepsRooted(groups, g, parent, 0);
      }
      groups := Moved(groups, g, parent);
      r := Ok(());
    }
  }

  lemma EndedWalk(t: Groups, g: string, p: string, k: nat)
    requires EndsBefore(t, g, p, k)
    ensures forall j: nat :: Up(t, p, j) != Some(g)
  {
    forall j: nat ensures Up(t, p, j) != Some(g) {
      if j >= k {
        UpStaysNone(t, p, k, j);
      }
    }
  }

  lemma WalkMeets(t: Groups, g: string, p: string, i: nat)
    requires Up(t, p, i) == Some(g) && forall j :: 0 <= j < i ==> Up(t, p, j).Some?
    ensures !exists k :: EndsBefore(t, g, p, k)
  {
    forall k: nat | EndsBefore(t, g, p, k) ensures false {
      if k <= i {
        UpStaysNone(t, p, k, i);
      }
    }
  }
}
