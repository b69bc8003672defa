/**
The domain operations performed in place on the tables, each followed by raising the desired
revisions of the agents it affects.
*/
module DomainStore {
  import opened Options
  import opened Configuration
  import opened Domain
  import opened DomainEffects

  /** The revision rows after raising `agents` once each. */
  ghost function AllBumped(revisions: map<string, ServerState>, agents: set<string>): map<string, ServerState> {
    map a | a in revisions.Keys + agents ::
      if a !in agents then revisions[a] else Bumped(if a in revisions then revisions[a] else FRESH_STATE)
  }

  ghost predicate RaisedOnce(rows: map<string, ServerState>, raised: map<string, ServerState>, done: set<string>) {
    && (forall a :: a in raised <==> a in rows || a in done)
    && (forall a :: a in rows && a !in done ==> raised[a] == rows[a])
    && (forall a :: a in done ==> raised[a] == Bumped(if a in rows then rows[a] else FRESH_STATE))
  }

  lemma RaisedIsAllBumped(rows: map<string, ServerState>, raised: map<string, ServerState>, done: set<string>)
    requires RaisedOnce(rows, raised, done)
    ensures raised == AllBumped(rows, done)
  {
  }

  method BumpEach(rows: map<string, ServerState>, ids: set<string>) returns (raised: map<string, ServerState>)
    ensures raised == AllBumped(rows, ids)
  {
    raised := rows;
    var rest := ids;
    while rest != {}
      invariant rest <= ids && RaisedOnce(rows, raised, ids - rest)
      decreases |rest|
    {
      var a :| a in rest;
      raised := raised[a := Bumped(if a in raised then raised[a] else FRESH_STATE)];
      rest := rest - {a};
    }
    RaisedIsAllBumped(rows, raised, ids - rest);
    assert ids - rest == ids;
  }

  /** The effect happened and its affected agents' revisions were raised, or nothing happened. */
  ghost predicate Performed(effect: Effect, before: Tables, rows: map<string, ServerState>,
                            after: Tables, raised: map<string, ServerState>, r: Result<(), DomainError>)
  {
    match effect
    case Ok((d, affected)) => r == Ok(()) && after == d && raised == AllBumped(rows, affected)
    case Err(e) => r == Err(e) && after == before && raised == rows
  }

  function DesiredOf(rows: map<string, ServerState>, a: string): nat {
    if a in rows then rows[a].desired else 0
  }

  /** Every active agent whose configuration changed has a higher desired revision, and no revision went down. */
  ghost predicate Maintained(before: Tables, rows: map<string, ServerState>, after: Tables, raised: map<string, ServerState>) {
    forall a :: DesiredOf(raised, a) >= DesiredOf(rows, a) &&
      (ActiveAgent(before, a) && Entries(after, a) != Entries(before, a) ==> DesiredOf(raised, a) > DesiredOf(rows, a))
  }

  /** Whatever the operation, its effect with its raise keeps every relationship in its realm and every revision maintained. */
  lemma OperationMaintains(d: Tables, op: Operation, rows: map<string, ServerState>)
    requires SameRealm(d)
    ensures match Changed(d, op)
            case Ok((after, affected)) => SameRealm(after) && Maintained(d, rows, after, AllBumped(rows, affected))
            case Err(_) => Maintained(d, rows, d, rows)
  {
    if Changed(d, op).Ok? {
      var (after, affected) := Changed(d, op).value;
      SameRealmKept(d, op);
      forall a | ActiveAgent(d, a) && Entries(after, a) != Entries(d, a) ensures a in affected {
        RevisionsMaintained(d, op, a);
      }
    }
  }

  lemma OperationObeys(d: Tables, op: Operation)
    requires SameRealm(d)
    ensures Changed(d, op).Ok? <==> Permitted(d, op)
    ensures match Changed(d, op)
            case Ok((after, _)) => TookEffect(d, op, after)
            case Err(e) => e == FirstFault(d, op)
  {
    RefusedInOrder(d, op);
    if Changed(d, op).Ok? {
      EveryOperationTakesEffect(d, op);
    }
  }

  lemma OperationTransacts(d: Tables, op: Operation)
    ensures SameRealm(d) ==>
              match Changed(d, op)
              case Ok((after, affected)) => Transacted(d, op, after, Ok(affected))
              case Err(e) => Transacted(d, op, d, Err(e))
  {
    if SameRealm(d) {
      OperationObeys(d, op);
    }
  }

  class MonitoringDomain {
    var agents: map<string, Agent>
    var groups: map<string, Group>
    var targets: map<string, Target>
    var monitors: map<string, Monitor>
    var members: map<(string, string), string>
    var direct: map<(string, string), Link>
    var grouped: map<(string, string), Link>
    var revisions: map<string, ServerState>

    function Value(): Tables
      reads this
    {
      Tables(agents, groups, targets, monitors, members, direct, grouped)
    }

    constructor ()
      ensures Value() == Tables(map[], map[], map[], map[], map[], map[], map[]) && revisions == map[]
    {
      agents, groups, targets, monitors := map[], map[], map[], map[];
      members, direct, grouped, revisions := map[], map[], map[], map[];
    }

    method BumpConfigurationRevisions(ids: set<string>)
      modifies this`revisions
      ensures revisions == AllBumped(old(revisions), ids)
    {
      revisions := BumpEach(revisions, ids);
    }

    /** The transaction of an operation: the tables changed and the agents it affects, or a refusal and no change. */
    ghost predicate Committed(effect: Effect, before: Tables, r: Result<set<string>, DomainError>)
      reads this
    {
      match effect
      case Ok((d, affected)) => r == Ok(affected) && Value() == d
      case Err(e) => r == Err(e) && Value() == before
    }

    /** After the commit of `op`: raise the revisions of the agents affected. */
    method RaiseAffected(ghost op: Operation, ghost before: Tables, outcome: Result<set<string>, DomainError>) returns (r: Result<(), DomainError>)
      requires SameRealm(before) && Committed(Changed(before, op), before, outcome)
      modifies this`revisions
      ensures Performed(Changed(before, op), before, old(revisions), Value(), revisions, r)
      ensures SameRealm(Value()) && Maintained(before, old(revisions), Value(), revisions)
      ensures Obeyed(before, op, Value(), r)
    {
      OperationMaintains(before, op, revisions);
      OperationObeys(before, op);
      if outcome.Err? {
        return Err(outcome.error);
      }
      BumpConfigurationRevisions(outcome.value);
      return Ok(());
    }

    method RewriteMonitor(realm: string, m: string, t: string, b: Behavior) returns (r: Result<set<string>, DomainError>)
      modifies this`monitors
      ensures Committed(MonitorUpdated(old(Value()), realm, m, t, b), old(Value()), r)
      ensures SameRealm(old(Value())) ==> Transacted(old(Value()), UpdateMonitor(realm, m, t, b), Value(), r)
    {
      OperationTransacts(Value(), UpdateMonitor(realm, m, t, b));
      if m !in monitors || t !in targets {
        return Err(NotFound);
      }
      if monitors[m].realm != realm || targets[t].realm != realm {
        return Err(RealmBoundary);
      }
      if monitors[m].archived || targets[t].archived || !targets[t].enabled {
        return Err(ResourceState);
      }
      if !ValidSchedule(b) {
        return Err(InvalidSchedule);
      }
      if monitors[m].target == t && monitors[m].behavior == b {
        return Ok({});
      }
      monitors := monitors[m := monitors[m].(target := t, behavior := b, revision := monitors[m].revision + 1)];
      return Ok(EffectiveAgents(Value(), m));
    }

    method UpdateMonitorBehavior(realm: string, m: string, t: string, b: Behavior) returns (r: Result<(), DomainError>)
      requires SameRealm(Value())
      modifies this
      ensures Performed(MonitorUpdated(old(Value()), realm, m, t, b), old(Value()), old(revisions), Value(), revisions, r)
      ensures SameRealm(Value()) && Maintained(old(Value()), old(revisions), Value(), revisions)
      ensures Obeyed(old(Value()), UpdateMonitor(realm, m, t, b), Value(), r)
    {
      var outcome := RewriteMonitor(realm, m, t, b);
      r := RaiseAffected(UpdateMonitor(realm, m, t, b), old(Value()), outcome);
    }

    method InsertMember(realm: string, g: string, a: string) returns (r: Result<set<string>, DomainError>)
      modifies this`members
      ensures Committed(MemberAdded(old(Value()), realm, g, a), old(Value()), r)
      ensures SameRealm(old(Value())) ==> Transacted(old(Value()), AddToGroup(realm, g, a), Value(), r)
    {
      OperationTransacts(Value(), AddToGroup(realm, g, a));
      if g !in groups || a !in agents {
        return Err(NotFound);
      }
      if groups[g].realm != realm || agents[a].realm != realm {
        return Err(RealmBoundary);
      }
      if groups[g].archived || agents[a].archived {
        return Err(ResourceState);
      }
      if (g, a) in members {
        return Ok({});
      }
      var assignments := HasAssignments(Value(), realm, g);
      members := members[(g, a) := realm];
      return Ok(if assignments then {a} else {});
    }

    method AddAgentToGroup(realm: string, g: string, a: string) returns (r: Result<(), DomainError>)
      requires SameRealm(Value())
      modifies this
      ensures Performed(MemberAdded(old(Value()), realm, g, a), old(Value()), old(revisions), Value(), revisions, r)
      ensures SameRealm(Value()) && Maintained(old(Value()), old(revisions), Value(), revisions)
      ensures Obeyed(old(Value()), AddToGroup(realm, g, a), Value(), r)
    {
      var outcome := InsertMember(realm, g, a);
      r := RaiseAffected(AddToGroup(realm, g, a), old(Value()), outcome);
    }

    method DeleteMember(realm: string, g: string, a: string) returns (r: Result<set<string>, DomainError>)
      modifies this`members
      ensures Committed(MemberRemoved(old(Value()), realm, g, a), old(Value()), r)
      ensures SameRealm(old(Value())) ==> Transacted(old(Value()), RemoveFromGroup(realm, g, a), Value(), r)
    {
      OperationTransacts(Value(), RemoveFromGroup(realm, g, a));
      if g !in groups || a !in agents {
        return Err(NotFound);
      }
      if groups[g].realm != realm || agents[a].realm != realm {
        return Err(RealmBoundary);
      }
      if (g, a) !in members || members[(g, a)] != realm {
        return Ok({});
      }
      members := members - {(g, a)};
      return Ok(if HasAssignments(Value(), realm, g) then {a} else {});
    }

    method RemoveAgentFromGroup(realm: string, g: string, a: string) returns (r: Result<(), DomainError>)
      requires SameRealm(Value())
      modifies this
      ensures Performed(MemberRemoved(old(Value()), realm, g, a), old(Value()), old(revisions), Value(), revisions, r)
      ensures SameRealm(Value()) && Maintained(old(Value()), old(revisions), Value(), revisions)
      ensures Obeyed(old(Value()), RemoveFromGroup(realm, g, a), Value(), r)
    {
      var outcome := DeleteMember(realm, g, a);
      r := RaiseAffected(RemoveFromGroup(realm, g, a), old(Value()), outcome);
    }

    method InsertDirect(realm: string, m: string, a: string) returns (r: Result<set<string>, DomainError>)
      modifies this`direct
      ensures Committed(AgentAssigned(old(Value()), realm, m, a), old(Value()), r)
      ensures SameRealm(old(Value())) ==> Transacted(old(Value()), AssignToAgent(realm, m, a), Value(), r)
    {
      OperationTransacts(Value(), AssignToAgent(realm, m, a));
      if m !in monitors || a !in agents {
        return Err(NotFound);
      }
      if monitors[m].realm != realm || agents[a].realm != realm {
        return Err(RealmBoundary);
      }
      if monitors[m].archived || agents[a].archived || !monitors[m].enabled || !agents[a].enabled {
        return Err(ResourceState);
      }
      if LinkedIn(direct, (m, a), realm) {
        return Ok({});
      }
      direct := direct[(m, a) := Link(realm, true)];
      return Ok({a});
    }

    method AssignMonitorToAgent(realm: string, m: string, a: string) returns (r: Result<(), DomainError>)
      requires SameRealm(Value())
      modifies this
      ensures Performed(AgentAssigned(old(Value()), realm, m, a), old(Value()), old(revisions), Value(), revisions, r)
      ensures SameRealm(Value()) && Maintained(old(Value()), old(revisions), Value(), revisions)
      ensures Obeyed(old(Value()), AssignToAgent(realm, m, a), Value(), r)
    {
      var outcome := InsertDirect(realm, m, a);
      r := RaiseAffected(AssignToAgent(realm, m, a), old(Value()), outcome);
    }

    method InsertGrouped(realm: string, m: string, g: string) returns (r: Result<set<string>, DomainError>)
      modifies this`grouped
      ensures Committed(GroupAssigned(old(Value()), realm, m, g), old(Value()), r)
      ensures SameRealm(old(Value())) ==> Transacted(old(Value()), AssignToGroup(realm, m, g), Value(), r)
    {
      OperationTransacts(Value(), AssignToGroup(realm, m, g));
      if m !in monitors || g !in groups {
        return Err(NotFound);
      }
      if monitors[m].realm != realm || groups[g].realm != realm {
        return Err(RealmBoundary);
      }
      if monitors[m].archived || groups[g].archived || !monitors[m].enabled || !groups[g].enabled {
        return Err(ResourceState);
      }
      if LinkedIn(grouped, (m, g), realm) {
        return Ok({});
      }
      grouped := grouped[(m, g) := Link(realm, true)];
      assert ActiveMembers(Value(), realm, g) == ActiveMembers(old(Value()), realm, g);
      return Ok(ActiveMembers(Value(), realm, g));
    }

    method AssignMonitorToAgentGroup(realm: string, m: string, g: string) returns (r: Result<(), DomainError>)
      requires SameRealm(Value())
      modifies this
      ensures Performed(GroupAssigned(old(Value()), realm, m, g), old(Value()), old(revisions), Value(), revisions, r)
      ensures SameRealm(Value()) && Maintained(old(Value()), old(revisions), Value(), revisions)
      ensures Obeyed(old(Value()), AssignToGroup(realm, m, g), Value(), r)
    {
      var outcome := InsertGrouped(realm, m, g);
      r := RaiseAffected(AssignToGroup(realm, m, g), old(Value()), outcome);
    }

    method DeleteDirect(realm: string, m: string, a: string) returns (r: Result<set<string>, DomainError>)
      modifies this`direct
      ensures Committed(AgentUnassigned(old(Value()), realm, m, a), old(Value()), r)
      ensures SameRealm(old(Value())) ==> Transacted(old(Value()), UnassignFromAgent(realm, m, a), Value(), r)
    {
      OperationTransacts(Value(), UnassignFromAgent(realm, m, a));
      if m !in monitors || a !in agents {
        return Err(NotFound);
      }
      if monitors[m].realm != realm || agents[a].realm != realm {
        return Err(RealmBoundary);
      }
      if (m, a) !in direct || direct[(m, a)].realm != realm {
        return Ok({});
      }
      direct := direct - {(m, a)};
      return Ok({a});
    }

    method UnassignMonitorFromAgent(realm: string, m: string, a: string) returns (r: Result<(), DomainError>)
      requires SameRealm(Value())
      modifies this
      ensures Performed(AgentUnassigned(old(Value()), realm, m, a), old(Value()), old(revisions), Value(), revisions, r)
      ensures SameRealm(Value()) && Maintained(old(Value()), old(revisions), Value(), revisions)
      ensures Obeyed(old(Value()), UnassignFromAgent(realm, m, a), Value(), r)
    {
      var outcome := DeleteDirect(realm, m, a);
      r := RaiseAffected(UnassignFromAgent(realm, m, a), old(Value()), outcome);
    }

    method DeleteGrouped(realm: string, m: string, g: string) returns (r: Result<set<string>, DomainError>)
      modifies this`grouped
      ensures Committed(GroupUnassigned(old(Value()), realm, m, g), old(Value()), r)
      ensures SameRealm(old(Value())) ==> Transacted(old(Value()), UnassignFromGroup(realm, m, g), Value(), r)
    {
      OperationTransacts(Value(), UnassignFromGroup(realm, m, g));
      if m !in monitors || g !in groups {
        return Err(NotFound);
      }
      if monitors[m].realm != realm || groups[g].realm != realm {
        return Err(RealmBoundary);
      }
      var ids := ActiveMembers(Value(), realm, g);
      if (m, g) !in grouped || grouped[(m, g)].realm != realm {
        return Ok({});
      }
      grouped := grouped - {(m, g)};
      return Ok(ids);
    }

    method UnassignMonitorFromAgentGroup(realm: string, m: string, g: string) returns (r: Result<(), DomainError>)
      requires SameRealm(Value())
      modifies this
      ensures Performed(GroupUnassigned(old(Value()), realm, m, g), old(Value()), old(revisions), Value(), revisions, r)
      ensures SameRealm(Value()) && Maintained(old(Value()), old(revisions), Value(), revisions)
      ensures Obeyed(old(Value()), UnassignFromGroup(realm, m, g), Value(), r)
    {
      var outcome := DeleteGrouped(realm, m, g);
      r := RaiseAffected(UnassignFromGroup(realm, m, g), old(Value()), outcome);
    }

    method ArchiveRows(realm: string, t: string) returns (r: Result<set<string>, DomainError>)
      modifies this`targets, this`monitors
      ensures Committed(TargetArchived(old(Value()), realm, t), old(Value()), r)
      ensures SameRealm(old(Value())) ==> Transacted(old(Value()), Operation.ArchiveTarget(realm, t), Value(), r)
    {
      OperationTransacts(Value(), Operation.ArchiveTarget(realm, t));
      if t !in targets {
        return Err(NotFound);
      }
      if targets[t].realm != realm {
        return Err(RealmBoundary);
      }
      if targets[t].archived {
        return Ok({});
      }
      var before := Value();
      targets := targets[t := targets[t].(enabled := false, archived := true)];
      var affected := AffectedAgents(before, Value(), realm, t);
      monitors := map m | m in monitors ::
        if OfTarget(before, realm, t, m) then monitors[m].(enabled := false, archived := true) else monitors[m];
      return Ok(affected);
    }

    method ArchiveTarget(realm: string, t: string) returns (r: Result<(), DomainError>)
      requires SameRealm(Value())
      modifies this
      ensures Performed(TargetArchived(old(Value()), realm, t), old(Value()), old(revisions), Value(), revisions, r)
      ensures SameRealm(Value()) && Maintained(old(Value()), old(revisions), Value(), revisions)
      ensures Obeyed(old(Value()), Operation.ArchiveTarget(realm, t), Value(), r)
    {
      var outcome := ArchiveRows(realm, t);
      r := RaiseAffected(Operation.ArchiveTarget(realm, t), old(Value()), outcome);
    }
  }

  function AgentsReached(d: Tables, ms: set<string>): set<string>
    requires forall m :: m in ms ==> m in d.monitors
  {
    set m, a | m in ms && a in EffectiveAgents(d, m) :: a
  }

  lemma EffectiveIgnoresTargets(before: Tables, d: Tables, m: string)
    requires d == before.(targets := d.targets) && m in d.monitors
    ensures EffectiveAgents(d, m) == EffectiveAgents(before, m)
  {
  }

  lemma ReachedOneMore(d: Tables, ms: set<string>, m: string)
    requires m in d.monitors && forall x :: x in ms ==> x in d.monitors
    ensures AgentsReached(d, ms + {m}) == AgentsReached(d, ms) + EffectiveAgents(d, m)
  {
  }

  /** The loop over the target's monitors; it reads the tables after the target was saved. */
  method AffectedAgents(before: Tables, d: Tables, realm: string, t: string) returns (affected: set<string>)
    requires d == before.(targets := d.targets)
    ensures affected == set m, a | m in before.monitors && OfTarget(before, realm, t, m) && a in EffectiveAgents(before, m) :: a
  {
    affected := {};
    var all := set m | m in d.monitors && OfTarget(d, realm, t, m);
    var rest := all;
    while rest != {}
      invariant rest <= all && affected == AgentsReached(before, all - rest)
      decreases |rest|
    {
      var m :| m in rest;
      EffectiveIgnoresTargets(before, d, m);
      ReachedOneMore(before, all - rest, m);
      assert all - (rest - {m}) == (all - rest) + {m};
      affected := affected + EffectiveAgents(d, m);
      rest := rest - {m};
    }
    assert all - {} == all;
  }
}
