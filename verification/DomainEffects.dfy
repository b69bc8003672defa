/**
What each domain operation does to the assignment relation: which monitors every agent is given after it,
read off the configurations, and in which order an operation is refused.
*/
module DomainEffects {
  import opened Options
  import opened Configuration
  import opened Domain

  // ---------------------------------------------------------------- what an agent is given

  /** The monitor is in use, in the agent's realm, and so is its target. */
  predicate Deliverable(d: Tables, x: string, n: string) {
    x in d.agents && LiveMonitor(d, n) && d.monitors[n].realm == d.agents[x].realm && LiveTarget(d, d.monitors[n].target)
  }

  /** The entry for a deliverable monitor, if the agent is to have it. */
  ghost function GivenIf(d: Tables, x: string, n: string, reached: bool): Option<Entry> {
    if Deliverable(d, x, n) && reached then Some(EntryOf(d, n)) else None
  }

  ghost function Given(d: Tables, x: string, n: string): Option<Entry> {
    GivenIf(d, x, n, x in d.agents && Reached(d, d.agents[x].realm, n, x))
  }

  /** That is what the built configuration holds. */
  lemma GivenIsEntry(d: Tables, x: string, n: string)
    ensures EntryAt(d, x, n) == Given(d, x, n)
  {
    EntryAtIff(d, x, n);
  }

  /** A group other than `g` reaches the monitor. */
  ghost predicate ReachedThroughOther(d: Tables, realm: string, n: string, x: string, g: string) {
    exists h :: h != g && ActiveGroup(d, h) && MemberIn(d, h, x, realm) && LinkedIn(d.grouped, (n, h), realm)
  }

  /** The configuration entry after an update: the new behaviour, one revision higher if anything changed. */
  ghost function Rewritten(d: Tables, m: string, t: string, b: Behavior): Entry
    requires m in d.monitors && t in d.targets
  {
    var changed := d.monitors[m].target != t || d.monitors[m].behavior != b;
    Entry(m, t, if changed then d.monitors[m].revision + 1 else d.monitors[m].revision, d.targets[t].address,
          b.probeType, b.schemaVersion, b.interval, b.timeout, b.configuration)
  }

  /** Monitor `n` in agent `x`'s configuration after the operation. */
  ghost function GivenAfter(d: Tables, op: Operation, x: string, n: string): Option<Entry> {
    match op
    case CreateAgent(_, _, _) => Given(d, x, n)
    case CreateGroup(_, _, _) => Given(d, x, n)
    case CreateTarget(_, _, _, _) => Given(d, x, n)
    case CreateMonitor(_, _, _, _) => Given(d, x, n)
    case UpdateMonitor(realm, m, t, b) =>
      if n != m then Given(d, x, n)
      else if x in d.agents && LiveMonitor(d, m) && t in d.targets && d.agents[x].realm == realm && Reached(d, realm, m, x)
      then Some(Rewritten(d, m, t, b)) else None
    case AddToGroup(realm, g, a) =>
      if x != a then Given(d, x, n)
      else GivenIf(d, x, n, Reached(d, realm, n, x) || (ActiveGroup(d, g) && LinkedIn(d.grouped, (n, g), realm)))
    case RemoveFromGroup(realm, g, a) =>
      if x != a then Given(d, x, n)
      else GivenIf(d, x, n, LinkedIn(d.direct, (n, x), realm) || ReachedThroughOther(d, realm, n, x, g))
    case AssignToAgent(_, m, a) => if x == a && n == m then GivenIf(d, x, n, true) else Given(d, x, n)
    case UnassignFromAgent(realm, m, a) =>
      if x == a && n == m then GivenIf(d, x, n, ReachedThroughGroup(d, realm, n, x)) else Given(d, x, n)
    case AssignToGroup(realm, m, g) => if MemberIn(d, g, x, realm) && n == m then GivenIf(d, x, n, true) else Given(d, x, n)
    case UnassignFromGroup(realm, m, g) =>
      if n != m then Given(d, x, n)
      else GivenIf(d, x, n, x in d.agents && (LinkedIn(d.direct, (n, x), realm) || ReachedThroughOther(d, realm, n, x, g)))
    case ArchiveTarget(_, t) => if n in d.monitors && d.monitors[n].target == t then None else Given(d, x, n)
  }

  /** Every agent is given what it should be, and no other pair of agent and monitor changed. */
  ghost predicate TookEffect(d: Tables, op: Operation, after: Tables) {
    forall x, n :: EntryAt(after, x, n) == GivenAfter(d, op, x, n)
  }

  // ---------------------------------------------------------------- operation by operation

  lemma CreationEffect(d: Tables, op: Operation, x: string, n: string)
    requires SameRealm(d) && Changed(d, op).Ok?
    requires op.CreateAgent? || op.CreateGroup? || op.CreateTarget? || op.CreateMonitor?
    ensures Given(Changed(d, op).value.0, x, n) == Given(d, x, n)
  {
    var after := Changed(d, op).value.0;
    CreationAddsRows(d, op);
    if x in d.agents {
      NewRowsReachNobody(d, after, d.agents[x].realm, n, x);
    } else {
      NobodyReached(d, after, x, n);
    }
  }

  lemma CreationAddsRows(d: Tables, op: Operation)
    requires Changed(d, op).Ok? && (op.CreateAgent? || op.CreateGroup? || op.CreateTarget? || op.CreateMonitor?)
    ensures OnlyNewRows(d, Changed(d, op).value.0)
  {
  }

  /** An agent just created is given nothing. */
  lemma NobodyReached(d: Tables, after: Tables, x: string, n: string)
    requires SameRealm(d) && OnlyNewRows(d, after) && x !in d.agents
    ensures Given(after, x, n) == Given(d, x, n) == None
  {
    if x in after.agents {
      NewRowsReachNobody(d, after, after.agents[x].realm, n, x);
    }
  }

  lemma UpdateEffect(d: Tables, realm: string, m: string, t: string, b: Behavior, x: string, n: string)
    requires MonitorUpdated(d, realm, m, t, b).Ok?
    ensures Given(MonitorUpdated(d, realm, m, t, b).value.0, x, n) == GivenAfter(d, UpdateMonitor(realm, m, t, b), x, n)
  {
    var after := MonitorUpdated(d, realm, m, t, b).value.0;
    if x in d.agents {
      SameReach(d, after, d.agents[x].realm, n, x);
    }
  }

  lemma AddEffect(d: Tables, realm: string, g: string, a: string, x: string, n: string)
    requires MemberInRealm(d, g, a) && MemberAdded(d, realm, g, a).Ok?
    ensures Given(MemberAdded(d, realm, g, a).value.0, x, n) == GivenAfter(d, AddToGroup(realm, g, a), x, n)
  {
    var after := MemberAdded(d, realm, g, a).value.0;
    if x in d.agents {
      var r := d.agents[x].realm;
      if (g, a) !in d.members {
        AddReaches(d, after, realm, g, a, r, n, x);
      } else if x == a && ActiveGroup(d, g) && LinkedIn(d.grouped, (n, g), realm) {
        assert MemberIn(d, g, a, realm);
      }
    }
  }

  lemma AddReaches(d: Tables, after: Tables, realm: string, g: string, a: string, r: string, n: string, x: string)
    requires after == d.(members := d.members[(g, a) := realm]) && (g, a) !in d.members && (x == a ==> r == realm)
    ensures Reached(after, r, n, x) <==> Reached(d, r, n, x) || (x == a && ActiveGroup(d, g) && LinkedIn(d.grouped, (n, g), r))
  {
    forall h ensures ActiveGroup(after, h) && MemberIn(after, h, x, r) && LinkedIn(after.grouped, (n, h), r) <==>
                     || (ActiveGroup(d, h) && MemberIn(d, h, x, r) && LinkedIn(d.grouped, (n, h), r))
                     || (h == g && x == a && ActiveGroup(d, g) && LinkedIn(d.grouped, (n, g), r)) {
    }
    if ReachedThroughGroup(d, r, n, x) {
      var h :| ActiveGroup(d, h) && MemberIn(d, h, x, r) && LinkedIn(d.grouped, (n, h), r);
      assert ActiveGroup(after, h) && MemberIn(after, h, x, r) && LinkedIn(after.grouped, (n, h), r);
    }
    if x == a && ActiveGroup(d, g) && LinkedIn(d.grouped, (n, g), r) {
      assert ActiveGroup(after, g) && MemberIn(after, g, x, r) && LinkedIn(after.grouped, (n, g), r);
    }
  }

  lemma RemoveEffect(d: Tables, realm: string, g: string, a: string, x: string, n: string)
    requires MemberInRealm(d, g, a) && MemberRemoved(d, realm, g, a).Ok?
    ensures Given(MemberRemoved(d, realm, g, a).value.0, x, n) == GivenAfter(d, RemoveFromGroup(realm, g, a), x, n)
  {
    var after := MemberRemoved(d, realm, g, a).value.0;
    if x in d.agents {
      RemoveReaches(d, after, g, a, d.agents[x].realm, n, x);
    }
  }

  lemma RemoveReaches(d: Tables, after: Tables, g: string, a: string, r: string, n: string, x: string)
    requires after == d.(members := after.members) && !MemberIn(after, g, a, r)
    requires forall k :: k != (g, a) ==> (k in after.members <==> k in d.members) && (k in d.members ==> after.members[k] == d.members[k])
    ensures x == a ==> (Reached(after, r, n, x) <==> LinkedIn(d.direct, (n, x), r) || ReachedThroughOther(d, r, n, x, g))
    ensures x != a ==> (Reached(after, r, n, x) <==> Reached(d, r, n, x))
  {
    if ReachedThroughGroup(after, r, n, x) {
      var h :| ActiveGroup(after, h) && MemberIn(after, h, x, r) && LinkedIn(after.grouped, (n, h), r);
      assert ActiveGroup(d, h) && MemberIn(d, h, x, r) && LinkedIn(d.grouped, (n, h), r);
    }
    if x == a && ReachedThroughOther(d, r, n, x, g) {
      var h :| h != g && ActiveGroup(d, h) && MemberIn(d, h, x, r) && LinkedIn(d.grouped, (n, h), r);
      assert ActiveGroup(after, h) && MemberIn(after, h, x, r) && LinkedIn(after.grouped, (n, h), r);
    }
    if x != a && ReachedThroughGroup(d, r, n, x) {
      var h :| ActiveGroup(d, h) && MemberIn(d, h, x, r) && LinkedIn(d.grouped, (n, h), r);
      assert ActiveGroup(after, h) && MemberIn(after, h, x, r) && LinkedIn(after.grouped, (n, h), r);
    }
  }

  /** Only `direct` changed: groups reach what they reached. */
  lemma SameGroups(d: Tables, after: Tables, r: string, n: string, x: string)
    requires after.groups == d.groups && after.members == d.members && after.grouped == d.grouped
    ensures ReachedThroughGroup(after, r, n, x) <==> ReachedThroughGroup(d, r, n, x)
  {
    if ReachedThroughGroup(d, r, n, x) {
      var g :| ActiveGroup(d, g) && MemberIn(d, g, x, r) && LinkedIn(d.grouped, (n, g), r);
      assert ActiveGroup(after, g) && MemberIn(after, g, x, r) && LinkedIn(after.grouped, (n, g), r);
    }
    if ReachedThroughGroup(after, r, n, x) {
      var g :| ActiveGroup(after, g) && MemberIn(after, g, x, r) && LinkedIn(after.grouped, (n, g), r);
      assert ActiveGroup(d, g) && MemberIn(d, g, x, r) && LinkedIn(d.grouped, (n, g), r);
    }
  }

  lemma AssignEffect(d: Tables, realm: string, m: string, a: string, x: string, n: string)
    requires AgentAssigned(d, realm, m, a).Ok?
    ensures Given(AgentAssigned(d, realm, m, a).value.0, x, n) == GivenAfter(d, AssignToAgent(realm, m, a), x, n)
  {
    var after := AgentAssigned(d, realm, m, a).value.0;
    if x in d.agents {
      SameGroups(d, after, d.agents[x].realm, n, x);
    }
  }

  lemma UnassignEffect(d: Tables, realm: string, m: string, a: string, x: string, n: string)
    requires AgentUnassigned(d, realm, m, a).Ok?
    ensures Given(AgentUnassigned(d, realm, m, a).value.0, x, n) == GivenAfter(d, UnassignFromAgent(realm, m, a), x, n)
  {
    var after := AgentUnassigned(d, realm, m, a).value.0;
    if x in d.agents {
      SameGroups(d, after, d.agents[x].realm, n, x);
    }
  }

  ghost predicate LinkInRealm(d: Tables, m: string, g: string) {
    (m, g) in d.grouped ==> m in d.monitors && d.grouped[(m, g)].realm == d.monitors[m].realm
  }

  ghost predicate MemberInRealm(d: Tables, g: string, x: string) {
    (g, x) in d.members ==> x in d.agents && d.members[(g, x)] == d.agents[x].realm
  }

  lemma AssignGroupEffect(d: Tables, realm: string, m: string, g: string, x: string, n: string)
    requires LinkInRealm(d, m, g) && MemberInRealm(d, g, x) && GroupAssigned(d, realm, m, g).Ok?
    ensures Given(GroupAssigned(d, realm, m, g).value.0, x, n) == GivenAfter(d, AssignToGroup(realm, m, g), x, n)
  {
    var after := GroupAssigned(d, realm, m, g).value.0;
    if x in d.agents {
      GroupLinkReaches(d, after, realm, m, g, d.agents[x].realm, n, x);
    }
  }

  lemma GroupLinkReaches(d: Tables, after: Tables, realm: string, m: string, g: string, r: string, n: string, x: string)
    requires after == d.(grouped := after.grouped) && ActiveGroup(d, g) && LinkedIn(after.grouped, (m, g), realm)
    requires forall k :: k != (m, g) ==> (k in after.grouped <==> k in d.grouped) && (k in d.grouped ==> after.grouped[k] == d.grouped[k])
    requires (m, g) in d.grouped ==> d.grouped[(m, g)].realm == realm
    ensures n == m && MemberIn(d, g, x, realm) && r == realm ==> Reached(after, r, n, x)
    ensures !(n == m && MemberIn(d, g, x, r) && r == realm) ==> (Reached(after, r, n, x) <==> Reached(d, r, n, x))
  {
    if n == m && MemberIn(d, g, x, realm) && r == realm {
      assert ActiveGroup(after, g) && MemberIn(after, g, x, r) && LinkedIn(after.grouped, (n, g), r);
    }
    if ReachedThroughGroup(after, r, n, x) {
      var h :| ActiveGroup(after, h) && MemberIn(after, h, x, r) && LinkedIn(after.grouped, (n, h), r);
      assert (n, h) != (m, g) ==> ActiveGroup(d, h) && MemberIn(d, h, x, r) && LinkedIn(d.grouped, (n, h), r);
    }
    if ReachedThroughGroup(d, r, n, x) {
      var h :| ActiveGroup(d, h) && MemberIn(d, h, x, r) && LinkedIn(d.grouped, (n, h), r);
      assert ActiveGroup(after, h) && MemberIn(after, h, x, r) && LinkedIn(after.grouped, (n, h), r);
    }
  }

  lemma UnassignGroupEffect(d: Tables, realm: string, m: string, g: string, x: string, n: string)
    requires LinkInRealm(d, m, g) && GroupUnassigned(d, realm, m, g).Ok?
    ensures Given(GroupUnassigned(d, realm, m, g).value.0, x, n) == GivenAfter(d, UnassignFromGroup(realm, m, g), x, n)
  {
    var after := GroupUnassigned(d, realm, m, g).value.0;
    if x in d.agents {
      GroupUnlinkReaches(d, after, m, g, d.agents[x].realm, n, x);
    }
  }

  lemma GroupUnlinkReaches(d: Tables, after: Tables, m: string, g: string, r: string, n: string, x: string)
    requires after == d.(grouped := after.grouped) && !LinkedIn(after.grouped, (m, g), r)
    requires forall k :: k != (m, g) ==> (k in after.grouped <==> k in d.grouped) && (k in d.grouped ==> after.grouped[k] == d.grouped[k])
    ensures n == m ==> (Reached(after, r, n, x) <==> LinkedIn(d.direct, (n, x), r) || ReachedThroughOther(d, r, n, x, g))
    ensures n != m ==> (Reached(after, r, n, x) <==> Reached(d, r, n, x))
  {
    if ReachedThroughGroup(after, r, n, x) {
      var h :| ActiveGroup(after, h) && MemberIn(after, h, x, r) && LinkedIn(after.grouped, (n, h), r);
      assert ActiveGroup(d, h) && MemberIn(d, h, x, r) && LinkedIn(d.grouped, (n, h), r);
    }
    if n == m && ReachedThroughOther(d, r, n, x, g) {
      var h :| h != g && ActiveGroup(d, h) && MemberIn(d, h, x, r) && LinkedIn(d.grouped, (n, h), r);
      assert ActiveGroup(after, h) && MemberIn(after, h, x, r) && LinkedIn(after.grouped, (n, h), r);
    }
    if n != m && ReachedThroughGroup(d, r, n, x) {
      var h :| ActiveGroup(d, h) && MemberIn(d, h, x, r) && LinkedIn(d.grouped, (n, h), r);
      assert ActiveGroup(after, h) && MemberIn(after, h, x, r) && LinkedIn(after.grouped, (n, h), r);
    }
  }

  lemma ArchiveEffect(d: Tables, realm: string, t: string, x: string, n: string)
    requires SameRealm(d) && TargetArchived(d, realm, t).Ok?
    ensures Given(TargetArchived(d, realm, t).value.0, x, n) == GivenAfter(d, ArchiveTarget(realm, t), x, n)
  {
    var after := TargetArchived(d, realm, t).value.0;
    if !d.targets[t].archived {
      ArchiveLeaves(d, realm, t, n);
      if x in d.agents {
        SameReach(d, after, d.agents[x].realm, n, x);
      }
    }
  }

  /** Whatever the operation, if it is carried out the configurations afterwards are the ones it stands for. */
  lemma EveryOperationTakesEffect(d: Tables, op: Operation)
    requires SameRealm(d) && Changed(d, op).Ok?
    ensures TookEffect(d, op, Changed(d, op).value.0)
  {
    forall x, n ensures EntryAt(Changed(d, op).value.0, x, n) == GivenAfter(d, op, x, n) {
      OperationEffect(d, op, x, n);
      GivenIsEntry(Changed(d, op).value.0, x, n);
    }
  }

  lemma OperationEffect(d: Tables, op: Operation, x: string, n: string)
    requires SameRealm(d) && Changed(d, op).Ok?
    ensures Given(Changed(d, op).value.0, x, n) == GivenAfter(d, op, x, n)
  {
    match op
    case CreateAgent(_, _, _) => CreationEffect(d, op, x, n);
    case CreateGroup(_, _, _) => CreationEffect(d, op, x, n);
    case CreateTarget(_, _, _, _) => CreationEffect(d, op, x, n);
    case CreateMonitor(_, _, _, _) => CreationEffect(d, op, x, n);
    case UpdateMonitor(realm, m, t, b) => UpdateEffect(d, realm, m, t, b, x, n);
    case AddToGroup(realm, g, a) => AddEffect(d, realm, g, a, x, n);
    case RemoveFromGroup(realm, g, a) => RemoveEffect(d, realm, g, a, x, n);
    case AssignToAgent(realm, m, a) => AssignEffect(d, realm, m, a, x, n);
    case UnassignFromAgent(realm, m, a) => UnassignEffect(d, realm, m, a, x, n);
    case AssignToGroup(realm, m, g) => AssignGroupEffect(d, realm, m, g, x, n);
    case UnassignFromGroup(realm, m, g) => UnassignGroupEffect(d, realm, m, g, x, n);
    case ArchiveTarget(realm, t) => ArchiveEffect(d, realm, t, x, n);
  }

  // ---------------------------------------------------------------- when an operation is refused

  /** The rows the operation names exist, and the one it creates does not. */
  predicate Named(d: Tables, op: Operation) {
    match op
    case CreateAgent(_, a, _) => a !in d.agents
    case CreateGroup(_, g, _) => g !in d.groups
    case CreateTarget(_, t, _, _) => t !in d.targets
    case CreateMonitor(_, m, t, _) => t in d.targets && m !in d.monitors
    case UpdateMonitor(_, m, t, _) => m in d.monitors && t in d.targets
    case AddToGroup(_, g, a) => g in d.groups && a in d.agents
    case RemoveFromGroup(_, g, a) => g in d.groups && a in d.agents
    case AssignToAgent(_, m, a) => m in d.monitors && a in d.agents
    case UnassignFromAgent(_, m, a) => m in d.monitors && a in d.agents
    case AssignToGroup(_, m, g) => m in d.monitors && g in d.groups
    case UnassignFromGroup(_, m, g) => m in d.monitors && g in d.groups
    case ArchiveTarget(_, t) => t in d.targets
  }

  /** They all belong to the caller's realm. */
  predicate WithinRealm(d: Tables, op: Operation)
    requires Named(d, op)
  {
    match op
    case CreateAgent(_, _, _) => true
    case CreateGroup(_, _, _) => true
    case CreateTarget(_, _, _, _) => true
    case CreateMonitor(realm, _, t, _) => d.targets[t].realm == realm
    case UpdateMonitor(realm, m, t, _) => d.monitors[m].realm == realm == d.targets[t].realm
    case AddToGroup(realm, g, a) => d.groups[g].realm == realm == d.agents[a].realm
    case RemoveFromGroup(realm, g, a) => d.groups[g].realm == realm == d.agents[a].realm
    case AssignToAgent(realm, m, a) => d.monitors[m].realm == realm == d.agents[a].realm
    case UnassignFromAgent(realm, m, a) => d.monitors[m].realm == realm == d.agents[a].realm
    case AssignToGroup(realm, m, g) => d.monitors[m].realm == realm == d.groups[g].realm
    case UnassignFromGroup(realm, m, g) => d.monitors[m].realm == realm == d.groups[g].realm
    case ArchiveTarget(realm, t) => d.targets[t].realm == realm
  }

  /** Nothing is attached to rows out of use; detaching and archiving are always possible. */
  predicate InUse(d: Tables, op: Operation)
    requires Named(d, op)
  {
    && (op.CreateMonitor? || op.UpdateMonitor? ==> LiveTarget(d, op.target))
    && (op.UpdateMonitor? ==> !d.monitors[op.monitor].archived)
    && (op.AddToGroup? ==> !d.groups[op.group].archived && !d.agents[op.agent].archived)
    && (op.AssignToAgent? || op.AssignToGroup? ==> LiveMonitor(d, op.monitor))
    && (op.AssignToAgent? ==> ActiveAgent(d, op.agent))
    && (op.AssignToGroup? ==> ActiveGroup(d, op.group))
  }

  /** A probe must be able to end before the next one starts. */
  predicate Timed(op: Operation) {
    op.CreateMonitor? || op.UpdateMonitor? ==> 1 <= op.behavior.timeout < op.behavior.interval
  }

  predicate Permitted(d: Tables, op: Operation) {
    Named(d, op) && WithinRealm(d, op) && InUse(d, op) && Timed(op)
  }

  /** The first of the four conditions that fails. */
  function FirstFault(d: Tables, op: Operation): DomainError
    requires !Permitted(d, op)
  {
    if !Named(d, op) then NotFound
    else if !WithinRealm(d, op) then RealmBoundary
    else if !InUse(d, op) then ResourceState
    else InvalidSchedule
  }

  /** Every operation is carried out exactly when it is permitted, and otherwise refused for the first reason. */
  lemma RefusedInOrder(d: Tables, op: Operation)
    ensures Changed(d, op).Ok? <==> Permitted(d, op)
    ensures !Permitted(d, op) ==> Changed(d, op) == Err(FirstFault(d, op))
  {
  }

  // ---------------------------------------------------------------- archiving is final

  predicate Retired(d: Tables, t: string) {
    && t in d.targets && d.targets[t].archived && !d.targets[t].enabled
    && forall m | m in d.monitors && d.monitors[m].target == t :: d.monitors[m].archived
  }

  /** An archived target and its monitors are out of use ... */
  lemma ArchiveRetires(d: Tables, realm: string, t: string)
    requires SameRealm(d) && TargetArchived(d, realm, t).Ok? && !d.targets[t].archived
    ensures Retired(TargetArchived(d, realm, t).value.0, t)
  {
  }

  /** ... and no later operation brings them back. */
  lemma RetiredForGood(d: Tables, op: Operation, t: string)
    requires Retired(d, t) && Changed(d, op).Ok?
    ensures Retired(Changed(d, op).value.0, t)
  {
    var after := Changed(d, op).value.0;
    forall m | m in after.monitors && after.monitors[m].target == t ensures after.monitors[m].archived {
      RetiredMonitor(d, op, t, m);
    }
  }

  lemma RetiredMonitor(d: Tables, op: Operation, t: string, m: string)
    requires Retired(d, t) && Changed(d, op).Ok? && m in Changed(d, op).value.0.monitors && Changed(d, op).value.0.monitors[m].target == t
    ensures Changed(d, op).value.0.monitors[m].archived
  {
  }

  // ---------------------------------------------------------------- repeated operations, agents raised

  /** Carried out again, an operation finds nothing to do and raises no revision. */
  lemma RepeatChangesNothing(d: Tables, op: Operation)
    requires Changed(d, op).Ok? && !op.CreateAgent? && !op.CreateGroup? && !op.CreateTarget? && !op.CreateMonitor?
    ensures Changed(Changed(d, op).value.0, op) == Ok((Changed(d, op).value.0, {}))
  {
  }

  /** The operation is about the agent: it names it, its group, or a monitor that reaches it. */
  ghost predicate Concerns(d: Tables, op: Operation, a: string) {
    match op
    case CreateAgent(_, _, _) => false
    case CreateGroup(_, _, _) => false
    case CreateTarget(_, _, _, _) => false
    case CreateMonitor(_, _, _, _) => false
    case UpdateMonitor(realm, m, _, _) => ActiveAgent(d, a) && Reached(d, realm, m, a)
    case AddToGroup(realm, g, x) => a == x && HasAssignments(d, realm, g)
    case RemoveFromGroup(realm, g, x) => a == x && HasAssignments(d, realm, g)
    case AssignToAgent(_, _, x) => a == x
    case UnassignFromAgent(_, _, x) => a == x
    case AssignToGroup(realm, _, g) => ActiveAgent(d, a) && MemberIn(d, g, a, realm)
    case UnassignFromGroup(realm, _, g) => ActiveAgent(d, a) && MemberIn(d, g, a, realm)
    case ArchiveTarget(realm, t) => ActiveAgent(d, a) && exists m :: m in d.monitors && d.monitors[m].target == t && Reached(d, realm, m, a)
  }

  /** No other agent's revision is raised. */
  lemma OnlyConcernedAreRaised(d: Tables, op: Operation, a: string)
    requires Changed(d, op).Ok? && a in Changed(d, op).value.1
    ensures Concerns(d, op, a)
  {
    if op.UpdateMonitor? {
      var after := Changed(d, op).value.0;
      EffectiveIff(after, op.monitor, a);
      SameReach(d, after, op.realm, op.monitor, a);
    } else if op.ArchiveTarget? {
      var m :| m in d.monitors && OfTarget(d, op.realm, op.target, m) && a in EffectiveAgents(d, m);
      EffectiveIff(d, m, a);
    }
  }

  // ---------------------------------------------------------------- an operation and its outcome

  ghost predicate Transacted(before: Tables, op: Operation, after: Tables, r: Result<set<string>, DomainError>) {
    Obeyed(before, op, after, match r case Ok(_) => Ok(()) case Err(e) => Err(e))
  }

  /** Carried out with its effect exactly when permitted; otherwise refused, with nothing changed. */
  ghost predicate Obeyed(before: Tables, op: Operation, after: Tables, r: Result<(), DomainError>) {
    && (r.Ok? <==> Permitted(before, op))
    && (if r.Ok? then TookEffect(before, op, after) else after == before && r.error == FirstFault(before, op))
  }
}
