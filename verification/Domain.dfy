/**
The monitoring domain: which monitors an agent is assigned, directly or through groups, and which
agents' configuration revisions an operation raises.

`Tables` is the value of the domain's tables.  `Changed` gives, for every operation, the tables after
it and the agents whose desired revision it raises, or the error that refuses it.
*/
module Domain {
  import opened Options
  import opened Configuration

  datatype Agent = Agent(realm: string, enabled: bool, archived: bool)

  datatype Group = Group(realm: string, enabled: bool, archived: bool)

  datatype Target = Target(realm: string, address: string, enabled: bool, archived: bool)

  /** What a monitor does: the fields whose change is a change of behaviour. */
  datatype Behavior = Behavior(probeType: string, interval: int, timeout: int, schemaVersion: int, configuration: string)

  datatype Monitor = Monitor(realm: string, target: string, behavior: Behavior, enabled: bool, archived: bool, revision: int)

  /** An assignment row. */
  datatype Link = Link(realm: string, enabled: bool)

  datatype Tables = Tables(
    agents: map<string, Agent>,
    groups: map<string, Group>,
    targets: map<string, Target>,
    monitors: map<string, Monitor>,
    members: map<(string, string), string>,    // (group, agent) to the row's realm
    direct: map<(string, string), Link>,       // (monitor, agent)
    grouped: map<(string, string), Link>)      // (monitor, group)

  datatype DomainError = NotFound | RealmBoundary | ResourceState | InvalidSchedule

  datatype Operation =
    | CreateAgent(realm: string, agent: string, enabled: bool)
    | CreateGroup(realm: string, group: string, enabled: bool)
    | CreateTarget(realm: string, target: string, address: string, enabled: bool)
    | CreateMonitor(realm: string, monitor: string, target: string, behavior: Behavior)
    | UpdateMonitor(realm: string, monitor: string, target: string, behavior: Behavior)
    | AddToGroup(realm: string, group: string, agent: string)
    | RemoveFromGroup(realm: string, group: string, agent: string)
    | AssignToAgent(realm: string, monitor: string, agent: string)
    | AssignToGroup(realm: string, monitor: string, group: string)
    | UnassignFromAgent(realm: string, monitor: string, agent: string)
    | UnassignFromGroup(realm: string, monitor: string, group: string)
    | ArchiveTarget(realm: string, target: string)

  // ---------------------------------------------------------------- three views of the assignment relation

  predicate ActiveAgent(d: Tables, a: string) {
    a in d.agents && d.agents[a].enabled && !d.agents[a].archived
  }

  predicate ActiveGroup(d: Tables, g: string) {
    g in d.groups && d.groups[g].enabled && !d.groups[g].archived
  }

  predicate LiveTarget(d: Tables, t: string) {
    t in d.targets && d.targets[t].enabled && !d.targets[t].archived
  }

  predicate LiveMonitor(d: Tables, m: string) {
    m in d.monitors && d.monitors[m].enabled && !d.monitors[m].archived
  }

  predicate LinkedIn<K(==)>(links: map<K, Link>, k: K, realm: string) {
    k in links && links[k].enabled && links[k].realm == realm
  }

  predicate MemberIn(d: Tables, g: string, a: string, realm: string) {
    (g, a) in d.members && d.members[(g, a)] == realm
  }

  /** The control plane's view: monitors assigned to an authenticated agent. */
  function AssignedMonitors(d: Tables, realm: string, a: string): set<string> {
    (set m | m in d.monitors && LinkedIn(d.direct, (m, a), realm))
    + (set m, g | m in d.monitors && g in d.groups && ActiveGroup(d, g) && MemberIn(d, g, a, realm)
                  && LinkedIn(d.grouped, (m, g), realm) :: m)
  }

  function EntryOf(d: Tables, m: string): Entry
    requires m in d.monitors && d.monitors[m].target in d.targets
  {
    var x := d.monitors[m];
    Entry(m, x.target, x.revision, d.targets[x.target].address, x.behavior.probeType, x.behavior.schemaVersion,
          x.behavior.interval, x.behavior.timeout, x.behavior.configuration)
  }

  /** The configuration an agent would be given now, by monitor; the list is in identifier order. */
  function Entries(d: Tables, a: string): map<string, Entry> {
    if a !in d.agents then map[]
    else
      var realm := d.agents[a].realm;
      map m | m in AssignedMonitors(d, realm, a) && LiveMonitor(d, m) && d.monitors[m].realm == realm
              && LiveTarget(d, d.monitors[m].target) :: EntryOf(d, m)
  }

  /** The domain's view: agents a change of monitor `m` reaches. */
  function EffectiveAgents(d: Tables, m: string): set<string>
    requires m in d.monitors
  {
    var realm := d.monitors[m].realm;
    if !LiveMonitor(d, m) then {}
    else
      (set a | a in d.agents && LinkedIn(d.direct, (m, a), realm) && ActiveAgent(d, a))
      + (set g, a | g in d.groups && a in d.agents && LinkedIn(d.grouped, (m, g), realm) && ActiveGroup(d, g)
                    && MemberIn(d, g, a, realm) && ActiveAgent(d, a) :: a)
  }

  /** The dashboard's view, joined in one SQL statement. */
  ghost predicate DashboardPair(d: Tables, realm: string, m: string, a: string) {
    && m in d.monitors && a in d.agents && d.monitors[m].realm == realm
    && LiveMonitor(d, m)
    && d.monitors[m].target in d.targets && d.targets[d.monitors[m].target].realm == realm && LiveTarget(d, d.monitors[m].target)
    && d.agents[a].realm == realm && ActiveAgent(d, a)
    && (|| LinkedIn(d.direct, (m, a), realm)
        || exists g :: g in d.groups && LinkedIn(d.grouped, (m, g), realm) && d.groups[g].realm == realm
                       && ActiveGroup(d, g) && MemberIn(d, g, a, realm))
  }

  /** Every relationship stays inside one realm and refers to existing rows. */
  ghost predicate SameRealm(d: Tables) {
    && (forall m :: m in d.monitors ==> d.monitors[m].target in d.targets && d.targets[d.monitors[m].target].realm == d.monitors[m].realm)
    && (forall g, a :: (g, a) in d.members ==> g in d.groups && a in d.agents
                                               && d.groups[g].realm == d.agents[a].realm == d.members[(g, a)])
    && (forall m, a :: (m, a) in d.direct ==> m in d.monitors && a in d.agents
                                              && d.monitors[m].realm == d.agents[a].realm == d.direct[(m, a)].realm)
    && (forall m, g :: (m, g) in d.grouped ==> m in d.monitors && g in d.groups
                                               && d.monitors[m].realm == d.groups[g].realm == d.grouped[(m, g)].realm)
  }

  /** The three computations of the relation agree on every pair. */
  lemma ViewsAgree(d: Tables, realm: string, m: string, a: string)
    requires SameRealm(d)
    ensures DashboardPair(d, realm, m, a) <==> m in Entries(d, a) && ActiveAgent(d, a) && d.agents[a].realm == realm
    ensures DashboardPair(d, realm, m, a) <==>
              && m in d.monitors && d.monitors[m].realm == realm && a in EffectiveAgents(d, m) && LiveTarget(d, d.monitors[m].target)
  {
    if m in d.monitors && a in d.agents {
      assert (m, a) in d.direct ==> d.direct[(m, a)].realm == d.monitors[m].realm == d.agents[a].realm;
      forall g | (m, g) in d.grouped && (g, a) in d.members
        ensures d.grouped[(m, g)].realm == d.members[(g, a)] == d.monitors[m].realm == d.agents[a].realm == d.groups[g].realm
      {
      }
    }
  }

  // ---------------------------------------------------------------- operations

  predicate ValidSchedule(b: Behavior) {
    b.interval >= 1 && 1 <= b.timeout < b.interval
  }

  function ActiveMembers(d: Tables, realm: string, g: string): set<string> {
    set a | a in d.agents && MemberIn(d, g, a, realm) && ActiveAgent(d, a)
  }

  predicate HasAssignments(d: Tables, realm: string, g: string) {
    exists m | m in d.monitors :: LinkedIn(d.grouped, (m, g), realm)
  }

  type Effect = Result<(Tables, set<string>), DomainError>

  function MonitorCreated(d: Tables, realm: string, m: string, t: string, b: Behavior): Effect {
    if t !in d.targets || m in d.monitors then Err(NotFound)
    else if d.targets[t].realm != realm then Err(RealmBoundary)
    else if !LiveTarget(d, t) then Err(ResourceState)
    else if !ValidSchedule(b) then Err(InvalidSchedule)
    else Ok((d.(monitors := d.monitors[m := Monitor(realm, t, b, true, false, 1)]), {}))
  }

  function MonitorUpdated(d: Tables, realm: string, m: string, t: string, b: Behavior): Effect {
    if m !in d.monitors || t !in d.targets then Err(NotFound)
    else if d.monitors[m].realm != realm || d.targets[t].realm != realm then Err(RealmBoundary)
    else if d.monitors[m].archived || !LiveTarget(d, t) then Err(ResourceState)
    else if !ValidSchedule(b) then Err(InvalidSchedule)
    else if d.monitors[m].target == t && d.monitors[m].behavior == b then Ok((d, {}))
    else
      var after := d.(monitors := d.monitors[m := d.monitors[m].(target := t, behavior := b, revision := d.monitors[m].revision + 1)]);
      Ok((after, EffectiveAgents(after, m)))
  }

  function MemberAdded(d: Tables, realm: string, g: string, a: string): Effect {
    if g !in d.groups || a !in d.agents then Err(NotFound)
    else if d.groups[g].realm != realm || d.agents[a].realm != realm then Err(RealmBoundary)
    else if d.groups[g].archived || d.agents[a].archived then Err(ResourceState)
    else if (g, a) in d.members then Ok((d, {}))
    else Ok((d.(members := d.members[(g, a) := realm]), if HasAssignments(d, realm, g) then {a} else {}))
  }

  function MemberRemoved(d: Tables, realm: string, g: string, a: string): Effect {
    if g !in d.groups || a !in d.agents then Err(NotFound)
    else if d.groups[g].realm != realm || d.agents[a].realm != realm then Err(RealmBoundary)
    else if !MemberIn(d, g, a, realm) then Ok((d, {}))
    else Ok((d.(members := d.members - {(g, a)}), if HasAssignments(d, realm, g) then {a} else {}))
  }

  function AgentAssigned(d: Tables, realm: string, m: string, a: string): Effect {
    if m !in d.monitors || a !in d.agents then Err(NotFound)
    else if d.monitors[m].realm != realm || d.agents[a].realm != realm then Err(RealmBoundary)
    else if !LiveMonitor(d, m) || !ActiveAgent(d, a) then Err(ResourceState)
    else if LinkedIn(d.direct, (m, a), realm) then Ok((d, {}))
    else Ok((d.(direct := d.direct[(m, a) := Link(realm, true)]), {a}))
  }

  function GroupAssigned(d: Tables, realm: string, m: string, g: string): Effect {
    if m !in d.monitors || g !in d.groups then Err(NotFound)
    else if d.monitors[m].realm != realm || d.groups[g].realm != realm then Err(RealmBoundary)
    else if !LiveMonitor(d, m) || !ActiveGroup(d, g) then Err(ResourceState)
    else if LinkedIn(d.grouped, (m, g), realm) then Ok((d, {}))
    else Ok((d.(grouped := d.grouped[(m, g) := Link(realm, true)]), ActiveMembers(d, realm, g)))
  }

  function AgentUnassigned(d: Tables, realm: string, m: string, a: string): Effect {
    if m !in d.monitors || a !in d.agents then Err(NotFound)
    else if d.monitors[m].realm != realm || d.agents[a].realm != realm then Err(RealmBoundary)
    else if (m, a) !in d.direct || d.direct[(m, a)].realm != realm then Ok((d, {}))
    else Ok((d.(direct := d.direct - {(m, a)}), {a}))
  }

  function GroupUnassigned(d: Tables, realm: string, m: string, g: string): Effect {
    if m !in d.monitors || g !in d.groups then Err(NotFound)
    else if d.monitors[m].realm != realm || d.groups[g].realm != realm then Err(RealmBoundary)
    else if (m, g) !in d.grouped || d.grouped[(m, g)].realm != realm then Ok((d, {}))
    else Ok((d.(grouped := d.grouped - {(m, g)}), ActiveMembers(d, realm, g)))
  }

  predicate OfTarget(d: Tables, realm: string, t: string, m: string) {
    m in d.monitors && d.monitors[m].realm == realm && d.monitors[m].target == t && !d.monitors[m].archived
  }

  function TargetArchived(d: Tables, realm: string, t: string): Effect {
    if t !in d.targets then Err(NotFound)
    else if d.targets[t].realm != realm then Err(RealmBoundary)
    else if d.targets[t].archived then Ok((d, {}))
    else
      var after := d.(targets := d.targets[t := d.targets[t].(enabled := false, archived := true)],
                      monitors := map m | m in d.monitors ::
                        if OfTarget(d, realm, t, m) then d.monitors[m].(enabled := false, archived := true) else d.monitors[m]);
      Ok((after, set m, a | m in d.monitors && OfTarget(d, realm, t, m) && a in EffectiveAgents(d, m) :: a))
  }

  function Changed(d: Tables, op: Operation): Effect {
    match op
    case CreateAgent(realm, a, enabled) =>
      if a in d.agents then Err(NotFound) else Ok((d.(agents := d.agents[a := Agent(realm, enabled, false)]), {}))
    case CreateGroup(realm, g, enabled) =>
      if g in d.groups then Err(NotFound) else Ok((d.(groups := d.groups[g := Group(realm, enabled, false)]), {}))
    case CreateTarget(realm, t, address, enabled) =>
      if t in d.targets then Err(NotFound) else Ok((d.(targets := d.targets[t := Target(realm, address, enabled, false)]), {}))
    case CreateMonitor(realm, m, t, b) => MonitorCreated(d, realm, m, t, b)
    case UpdateMonitor(realm, m, t, b) => MonitorUpdated(d, realm, m, t, b)
    case AddToGroup(realm, g, a) => MemberAdded(d, realm, g, a)
    case RemoveFromGroup(realm, g, a) => MemberRemoved(d, realm, g, a)
    case AssignToAgent(realm, m, a) => AgentAssigned(d, realm, m, a)
    case AssignToGroup(realm, m, g) => GroupAssigned(d, realm, m, g)
    case UnassignFromAgent(realm, m, a) => AgentUnassigned(d, realm, m, a)
    case UnassignFromGroup(realm, m, g) => GroupUnassigned(d, realm, m, g)
    case ArchiveTarget(realm, t) => TargetArchived(d, realm, t)
  }

  // ---------------------------------------------------------------- what every operation keeps

  /** No operation lets a relationship cross a realm. */
  lemma SameRealmKept(d: Tables, op: Operation)
    requires SameRealm(d) && Changed(d, op).Ok?
    ensures SameRealm(Changed(d, op).value.0)
  {
    if op.CreateAgent? || op.CreateGroup? || op.CreateTarget? || op.CreateMonitor? {
      CreationKeepsRealm(d, op);
    } else if op.UpdateMonitor? || op.ArchiveTarget? {
      RewriteKeepsRealm(d, op);
    } else {
      LinkingKeepsRealm(d, op);
    }
  }

  lemma CreationKeepsRealm(d: Tables, op: Operation)
    requires SameRealm(d) && Changed(d, op).Ok?
    requires op.CreateAgent? || op.CreateGroup? || op.CreateTarget? || op.CreateMonitor?
    ensures SameRealm(Changed(d, op).value.0)
  {
  }

  lemma RewriteKeepsRealm(d: Tables, op: Operation)
    requires SameRealm(d) && Changed(d, op).Ok? && (op.UpdateMonitor? || op.ArchiveTarget?)
    ensures SameRealm(Changed(d, op).value.0)
  {
  }

  lemma LinkingKeepsRealm(d: Tables, op: Operation)
    requires SameRealm(d) && Changed(d, op).Ok?
    requires op.AddToGroup? || op.RemoveFromGroup? || op.AssignToAgent? || op.AssignToGroup? || op.UnassignFromAgent? || op.UnassignFromGroup?
    ensures SameRealm(Changed(d, op).value.0)
  {
  }

  /** Monitor `m` in agent `a`'s configuration, if it is there. */
  function EntryAt(d: Tables, a: string, m: string): Option<Entry> {
    var e := Entries(d, a);
    if m in e then Some(e[m]) else None
  }

  ghost predicate ReachedThroughGroup(d: Tables, realm: string, m: string, a: string) {
    exists g :: ActiveGroup(d, g) && MemberIn(d, g, a, realm) && LinkedIn(d.grouped, (m, g), realm)
  }

  ghost predicate Reached(d: Tables, realm: string, m: string, a: string) {
    LinkedIn(d.direct, (m, a), realm) || ReachedThroughGroup(d, realm, m, a)
  }

  lemma EntryAtIff(d: Tables, a: string, m: string)
    ensures EntryAt(d, a, m).Some? <==>
              && a in d.agents && LiveMonitor(d, m) && d.monitors[m].realm == d.agents[a].realm
              && LiveTarget(d, d.monitors[m].target) && Reached(d, d.agents[a].realm, m, a)
    ensures EntryAt(d, a, m).Some? ==> EntryAt(d, a, m).value == EntryOf(d, m)
  {
  }

  lemma EffectiveIff(d: Tables, m: string, a: string)
    requires m in d.monitors
    ensures a in EffectiveAgents(d, m) <==> LiveMonitor(d, m) && ActiveAgent(d, a) && Reached(d, d.monitors[m].realm, m, a)
  {
  }

  /** `after` is `d` with rows added to which nothing refers yet. */
  ghost predicate OnlyNewRows(d: Tables, after: Tables) {
    && after.members == d.members && after.direct == d.direct && after.grouped == d.grouped
    && (forall x :: x in d.agents ==> x in after.agents && after.agents[x] == d.agents[x])
    && (forall x :: x in d.groups ==> x in after.groups && after.groups[x] == d.groups[x])
    && (forall x :: x in d.targets ==> x in after.targets && after.targets[x] == d.targets[x])
    && (forall x :: x in d.monitors ==> x in after.monitors && after.monitors[x] == d.monitors[x])
  }

  lemma NewRowsReachNobody(d: Tables, after: Tables, realm: string, m: string, a: string)
    requires SameRealm(d) && OnlyNewRows(d, after)
    ensures Reached(after, realm, m, a) <==> Reached(d, realm, m, a)
    ensures Reached(d, realm, m, a) ==> m in d.monitors
  {
    if ReachedThroughGroup(after, realm, m, a) {
      var g :| ActiveGroup(after, g) && MemberIn(after, g, a, realm) && LinkedIn(after.grouped, (m, g), realm);
      assert (m, g) in d.grouped && g in d.groups;
      assert ActiveGroup(d, g) && MemberIn(d, g, a, realm) && LinkedIn(d.grouped, (m, g), realm);
    }
    if ReachedThroughGroup(d, realm, m, a) {
      var g :| ActiveGroup(d, g) && MemberIn(d, g, a, realm) && LinkedIn(d.grouped, (m, g), realm);
      assert (m, g) in d.grouped;
      assert ActiveGroup(after, g) && MemberIn(after, g, a, realm) && LinkedIn(after.grouped, (m, g), realm);
    }
  }

  lemma NewRowsChangeNothing(d: Tables, after: Tables, a: string, m: string)
    requires SameRealm(d) && OnlyNewRows(d, after) && a in d.agents
    ensures EntryAt(after, a, m) == EntryAt(d, a, m)
  {
    EntryAtIff(d, a, m);
    EntryAtIff(after, a, m);
    NewRowsReachNobody(d, after, d.agents[a].realm, m, a);
  }

  lemma CreationChangesNothing(d: Tables, op: Operation, a: string, m: string)
    requires SameRealm(d) && Changed(d, op).Ok? && ActiveAgent(d, a)
    requires op.CreateAgent? || op.CreateGroup? || op.CreateTarget? || op.CreateMonitor?
    ensures EntryAt(Changed(d, op).value.0, a, m) == EntryAt(d, a, m)
  {
    var after := Changed(d, op).value.0;
    assert OnlyNewRows(d, after);
    NewRowsChangeNothing(d, after, a, m);
  }

  lemma MembershipReaches(d: Tables, after: Tables, realm: string, g: string, x: string, a: string, m: string)
    requires after == d.(members := after.members) && a in d.agents
    requires forall k :: k != (g, x) ==> (k in after.members <==> k in d.members) && (k in d.members ==> after.members[k] == d.members[k])
    requires d.agents[a].realm == realm || a != x
    ensures EntryAt(after, a, m) != EntryAt(d, a, m) ==> a == x && HasAssignments(d, realm, g)
  {
    EntryAtIff(d, a, m);
    EntryAtIff(after, a, m);
    var r := d.agents[a].realm;
    if a != x || !HasAssignments(d, realm, g) {
      forall h ensures ActiveGroup(d, h) && MemberIn(d, h, a, r) && LinkedIn(d.grouped, (m, h), r) && m in d.monitors <==>
                       ActiveGroup(after, h) && MemberIn(after, h, a, r) && LinkedIn(after.grouped, (m, h), r) && m in d.monitors {
      }
    }
  }

  lemma MembershipMaintained(d: Tables, op: Operation, a: string, m: string)
    requires SameRealm(d) && Changed(d, op).Ok? && ActiveAgent(d, a)
    requires op.AddToGroup? || op.RemoveFromGroup?
    ensures EntryAt(Changed(d, op).value.0, a, m) != EntryAt(d, a, m) ==> a in Changed(d, op).value.1
  {
    MembershipReaches(d, Changed(d, op).value.0, op.realm, op.group, op.agent, a, m);
  }

  lemma DirectReaches(d: Tables, after: Tables, k: (string, string), a: string, m: string)
    requires after == d.(direct := after.direct)
    requires forall j :: j != k ==> (j in after.direct <==> j in d.direct) && (j in d.direct ==> after.direct[j] == d.direct[j])
    ensures EntryAt(after, a, m) != EntryAt(d, a, m) ==> (m, a) == k
  {
    EntryAtIff(d, a, m);
    EntryAtIff(after, a, m);
    if a in d.agents {
      assert ReachedThroughGroup(after, d.agents[a].realm, m, a) <==> ReachedThroughGroup(d, d.agents[a].realm, m, a);
    }
  }

  lemma DirectMaintained(d: Tables, op: Operation, a: string, m: string)
    requires Changed(d, op).Ok? && (op.AssignToAgent? || op.UnassignFromAgent?)
    ensures EntryAt(Changed(d, op).value.0, a, m) != EntryAt(d, a, m) ==> a in Changed(d, op).value.1
  {
    var after := Changed(d, op).value.0;
    if after != d {
      DirectReaches(d, after, (op.monitor, op.agent), a, m);
    }
  }

  lemma GroupedReaches(d: Tables, after: Tables, k: (string, string), a: string, m: string)
    requires after == d.(grouped := after.grouped)
    requires forall j :: j != k ==> (j in after.grouped <==> j in d.grouped) && (j in d.grouped ==> after.grouped[j] == d.grouped[j])
    ensures EntryAt(after, a, m) != EntryAt(d, a, m) ==> a in d.agents && MemberIn(d, k.1, a, d.agents[a].realm)
  {
    EntryAtIff(d, a, m);
    EntryAtIff(after, a, m);
    if a in d.agents && !MemberIn(d, k.1, a, d.agents[a].realm) {
      var realm := d.agents[a].realm;
      assert ReachedThroughGroup(after, realm, m, a) <==> ReachedThroughGroup(d, realm, m, a);
    }
  }

  lemma GroupedMaintained(d: Tables, op: Operation, a: string, m: string)
    requires SameRealm(d) && Changed(d, op).Ok? && ActiveAgent(d, a) && (op.AssignToGroup? || op.UnassignFromGroup?)
    ensures EntryAt(Changed(d, op).value.0, a, m) != EntryAt(d, a, m) ==> a in Changed(d, op).value.1
  {
    var after := Changed(d, op).value.0;
    if after != d {
      GroupedReaches(d, after, (op.monitor, op.group), a, m);
    }
  }

  lemma UpdateMaintained(d: Tables, op: Operation, a: string, m: string)
    requires SameRealm(d) && Changed(d, op).Ok? && ActiveAgent(d, a) && op.UpdateMonitor?
    ensures EntryAt(Changed(d, op).value.0, a, m) != EntryAt(d, a, m) ==> a in Changed(d, op).value.1
  {
    var after := Changed(d, op).value.0;
    if after != d {
      EffectiveIff(after, op.monitor, a);
      EntryAtIff(d, a, m);
      EntryAtIff(after, a, m);
      SameReach(d, after, d.agents[a].realm, m, a);
    }
  }

  lemma SameReach(d: Tables, after: Tables, realm: string, m: string, a: string)
    requires after.groups == d.groups && after.members == d.members && after.direct == d.direct && after.grouped == d.grouped
    ensures Reached(after, realm, m, a) <==> Reached(d, realm, m, a)
  {
    if ReachedThroughGroup(d, realm, m, a) {
      var g :| ActiveGroup(d, g) && MemberIn(d, g, a, realm) && LinkedIn(d.grouped, (m, g), realm);
      assert ActiveGroup(after, g) && MemberIn(after, g, a, realm) && LinkedIn(after.grouped, (m, g), realm);
    }
    if ReachedThroughGroup(after, realm, m, a) {
      var g :| ActiveGroup(after, g) && MemberIn(after, g, a, realm) && LinkedIn(after.grouped, (m, g), realm);
      assert ActiveGroup(d, g) && MemberIn(d, g, a, realm) && LinkedIn(d.grouped, (m, g), realm);
    }
  }

  /** What archiving leaves alive. */
  lemma ArchiveLeaves(d: Tables, realm: string, t: string, m: string)
    requires t in d.targets && d.targets[t].realm == realm && !d.targets[t].archived
    ensures var after := TargetArchived(d, realm, t).value.0;
            && (LiveMonitor(after, m) <==> LiveMonitor(d, m) && !OfTarget(d, realm, t, m))
            && (LiveMonitor(after, m) ==> after.monitors[m] == d.monitors[m])
            && after.agents == d.agents && after.groups == d.groups && after.members == d.members
            && after.direct == d.direct && after.grouped == d.grouped
            && after.targets == d.targets[t := d.targets[t].(enabled := false, archived := true)]
  {
  }

  lemma ArchiveMaintained(d: Tables, op: Operation, a: string, m: string)
    requires SameRealm(d) && Changed(d, op).Ok? && ActiveAgent(d, a) && op.ArchiveTarget?
    ensures EntryAt(Changed(d, op).value.0, a, m) != EntryAt(d, a, m) ==> a in Changed(d, op).value.1
  {
    if !d.targets[op.target].archived {
      ArchiveLeaves(d, op.realm, op.target, m);
      var after := TargetArchived(d, op.realm, op.target).value.0;
      EntryAtIff(d, a, m);
      EntryAtIff(after, a, m);
      SameReach(d, after, d.agents[a].realm, m, a);
      if OfTarget(d, op.realm, op.target, m) {
        EffectiveIff(d, m, a);
      }
    }
  }

  /**
  Incremental maintenance is complete: whichever operation changes the configuration an active agent
  would be given also raises that agent's desired revision.
  */
  lemma RevisionsMaintained(d: Tables, op: Operation, a: string)
    requires SameRealm(d) && Changed(d, op).Ok? && ActiveAgent(d, a)
    ensures Entries(Changed(d, op).value.0, a) != Entries(d, a) ==> a in Changed(d, op).value.1
  {
    var (after, affected) := Changed(d, op).value;
    if a !in affected {
      forall m ensures EntryAt(after, a, m) == EntryAt(d, a, m) {
        match op
        case CreateAgent(_, _, _) => CreationChangesNothing(d, op, a, m);
        case CreateGroup(_, _, _) => CreationChangesNothing(d, op, a, m);
        case CreateTarget(_, _, _, _) => CreationChangesNothing(d, op, a, m);
        case CreateMonitor(_, _, _, _) => CreationChangesNothing(d, op, a, m);
        case UpdateMonitor(_, _, _, _) => UpdateMaintained(d, op, a, m);
        case AddToGroup(_, _, _) => MembershipMaintained(d, op, a, m);
        case RemoveFromGroup(_, _, _) => MembershipMaintained(d, op, a, m);
        case AssignToAgent(_, _, _) => DirectMaintained(d, op, a, m);
        case UnassignFromAgent(_, _, _) => DirectMaintained(d, op, a, m);
        case AssignToGroup(_, _, _) => GroupedMaintained(d, op, a, m);
        case UnassignFromGroup(_, _, _) => GroupedMaintained(d, op, a, m);
        case ArchiveTarget(_, _) => ArchiveMaintained(d, op, a, m);
      }
      SameEntries(d, after, a);
    }
  }

  lemma SameEntries(d: Tables, after: Tables, a: string)
    requires forall m :: EntryAt(after, a, m) == EntryAt(d, a, m)
    ensures Entries(after, a) == Entries(d, a)
  {
    forall m ensures m in Entries(after, a) <==> m in Entries(d, a) {
      assert EntryAt(after, a, m) == EntryAt(d, a, m);
    }
    forall m | m in Entries(d, a) ensures Entries(after, a)[m] == Entries(d, a)[m] {
      assert EntryAt(after, a, m) == EntryAt(d, a, m);
    }
  }

  /** Operations neither enable, disable nor archive agents. */
  lemma AgentsKept(d: Tables, op: Operation, a: string)
    requires Changed(d, op).Ok? && a in d.agents
    ensures a in Changed(d, op).value.0.agents && Changed(d, op).value.0.agents[a] == d.agents[a]
  {
  }
}
