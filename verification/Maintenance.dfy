/**
Desired revisions under change: domain operations commit first and raise revisions afterwards, one
agent at a time, while agents keep asking for their configuration.

`owed` are the agents whose revision a committed operation has yet to raise; a process that stops in
between loses them, and `lost` remembers which.
*/
module Maintenance {
  import opened Options
  import opened Strings
  import opened Configuration
  import opened Domain

  // ---------------------------------------------------------------- the built list

  lemma {:induction false} LeastExists(s: set<string>)
    requires s != {}
    ensures exists x :: IsLeast(s, x)
  {
    var x :| x in s;
    if s == {x} {
      assert IsLeast(s, x);
    } else {
      LeastExists(s - {x});
      var y :| IsLeast(s - {x}, y);
      TextLessTotal(x, y);
      if TextLess(x, y) {
        forall z | z in s && z != x ensures TextLess(x, z) {
          if z != y {
            TextLessTransitive(x, y, z);
          }
        }
        assert IsLeast(s, x);
      } else {
        assert IsLeast(s, y);
      }
    }
  }

  ghost predicate IsLeast(s: set<string>, x: string) {
    x in s && forall y :: y in s && y != x ==> TextLess(x, y)
  }

  /** A configuration's monitors in identifier order. */
  ghost function Listed(entries: map<string, Entry>): Content
    decreases |entries|
  {
    if entries == map[] then []
    else
      assert entries.Keys != {};
      LeastExists(entries.Keys);
      var k :| IsLeast(entries.Keys, k);
      [entries[k]] + Listed(entries - {k})
  }

  lemma {:induction false} ListedMonitors(entries: map<string, Entry>)
    requires forall m :: m in entries ==> entries[m].monitor == m
    ensures forall e :: e in Listed(entries) <==> e.monitor in entries && entries[e.monitor] == e
    ensures DistinctMonitors(Listed(entries))
    decreases |entries|
  {
    if entries != map[] {
      var k := ListedFirst(entries);
      var rest := Listed(entries - {k});
      ListedMonitors(entries - {k});
      OneMore(entries[k], rest);
    }
  }

  lemma ListedFirst(entries: map<string, Entry>) returns (k: string)
    requires entries != map[]
    ensures k in entries && Listed(entries) == [entries[k]] + Listed(entries - {k})
  {
    assert entries.Keys != {};
    LeastExists(entries.Keys);
    k :| IsLeast(entries.Keys, k) && Listed(entries) == [entries[k]] + Listed(entries - {k});
  }

  lemma OneMore(e: Entry, rest: Content)
    requires DistinctMonitors(rest) && forall x :: x in rest ==> x.monitor != e.monitor
    ensures DistinctMonitors([e] + rest) && forall x :: x in [e] + rest <==> x == e || x in rest
  {
  }

  /** What a snapshot built now would contain. */
  ghost function Built(d: Tables, a: string): Content {
    Listed(Entries(d, a))
  }

  lemma BuiltIsWellFormed(d: Tables, a: string)
    ensures DistinctMonitors(Built(d, a))
    ensures forall e :: e in Built(d, a) <==> EntryAt(d, a, e.monitor) == Some(e)
  {
    ListedMonitors(Entries(d, a));
  }

  // ---------------------------------------------------------------- steps

  datatype State = State(d: Tables, revisions: map<string, ServerState>, owed: set<string>, lost: set<string>)

  datatype Step =
    | Operate(op: Operation)
    | Raise(agent: string)
    | Ask(agent: string, heartbeat: bool, supported: Entry -> bool)
    | Acknowledge(agent: string, revision: nat, hash: string)
    | Restart

  function RevisionsOf(s: State, a: string): ServerState {
    if a in s.revisions then s.revisions[a] else FRESH_STATE
  }

  ghost function Next(s: State, step: Step, digest: Content -> string): State {
    match step
    case Operate(op) =>
      (match Changed(s.d, op)
       case Ok((d, affected)) => s.(d := d, owed := s.owed + affected)
       case Err(_) => s)
    case Raise(a) => s.(revisions := s.revisions[a := Bumped(RevisionsOf(s, a))], owed := s.owed - {a}, lost := s.lost - {a})
    case Ask(a, heartbeat, supported) =>
      (match Issued(RevisionsOf(s, a), heartbeat, Built(s.d, a), supported, digest)
       case Ok((after, _)) => s.(revisions := s.revisions[a := after])
       case Err(_) => s)
    case Acknowledge(a, revision, hash) =>
      (match AcknowledgedBy(RevisionsOf(s, a), revision, hash)
       case Ok(after) => s.(revisions := s.revisions[a := after])
       case Err(_) => s)
    case Restart => s.(owed := {}, lost := s.lost + s.owed)
  }

  const EMPTY := State(Tables(map[], map[], map[], map[], map[], map[], map[]), map[], {}, {})

  ghost function Run(steps: seq<Step>, digest: Content -> string): State {
    if steps == [] then EMPTY else Next(Run(steps[..|steps| - 1], digest), steps[|steps| - 1], digest)
  }

  // ---------------------------------------------------------------- invariant

  /** The snapshot stored at the desired revision, if there is one, is what would be built now. */
  ghost predicate UpToDate(s: State, a: string) {
    var r := RevisionsOf(s, a);
    var revision := if r.desired == 0 then 1 else r.desired;
    revision in r.snapshots ==> r.snapshots[revision].content == Built(s.d, a)
  }

  ghost predicate Inv(s: State, digest: Content -> string) {
    && SameRealm(s.d)
    && (forall a :: ValidServer(RevisionsOf(s, a), digest))
    && (forall a :: ActiveAgent(s.d, a) ==> a in s.owed || a in s.lost || UpToDate(s, a))
    && (forall a :: a !in s.d.agents ==> RevisionsOf(s, a).snapshots == map[] || UpToDate(s, a))
  }

  lemma OperateKeeps(s: State, op: Operation, digest: Content -> string)
    requires Inv(s, digest) && Changed(s.d, op).Ok?
    ensures Inv(Next(s, Operate(op), digest), digest)
  {
    var t := Next(s, Operate(op), digest);
    SameRealmKept(s.d, op);
    forall a ensures ValidServer(RevisionsOf(t, a), digest) {
      assert RevisionsOf(t, a) == RevisionsOf(s, a);
    }
    forall a | ActiveAgent(t.d, a) && a !in t.owed && a !in t.lost ensures UpToDate(t, a) {
      OperateKeepsUpToDate(s, op, a, digest);
    }
    forall a | a !in t.d.agents ensures RevisionsOf(t, a).snapshots == map[] || UpToDate(t, a) {
      if a in s.d.agents {
        AgentsKept(s.d, op, a);
      }
      UnknownAgent(s.d, a);
      UnknownAgent(t.d, a);
    }
  }

  lemma UnknownAgent(d: Tables, a: string)
    requires a !in d.agents
    ensures Built(d, a) == []
  {
  }

  lemma OperateKeepsUpToDate(s: State, op: Operation, a: string, digest: Content -> string)
    requires Inv(s, digest) && Changed(s.d, op).Ok?
    requires var t := Next(s, Operate(op), digest); ActiveAgent(t.d, a) && a !in t.owed && a !in t.lost
    ensures UpToDate(Next(s, Operate(op), digest), a)
  {
    var (d, affected) := Changed(s.d, op).value;
    if a in s.d.agents {
      AgentsKept(s.d, op, a);
      RevisionsMaintained(s.d, op, a);
      assert UpToDate(s, a);
    } else {
      UnknownAgent(s.d, a);
      NewAgentIsUnassigned(s.d, op, a);
    }
  }

  lemma NewAgentIsUnassigned(d: Tables, op: Operation, a: string)
    requires SameRealm(d) && Changed(d, op).Ok? && a !in d.agents && a in Changed(d, op).value.0.agents
    ensures Built(Changed(d, op).value.0, a) == []
  {
    var after := Changed(d, op).value.0;
    assert op.CreateAgent?;
    forall m ensures m !in Entries(after, a) {
      EntryAtIff(after, a, m);
    }
    assert Entries(after, a) == map[];
  }

  lemma RaiseKeeps(s: State, a: string, digest: Content -> string)
    requires Inv(s, digest)
    ensures Inv(Next(s, Raise(a), digest), digest)
  {
    var t := Next(s, Raise(a), digest);
    BumpKeeps(RevisionsOf(s, a), digest);
    forall b ensures ValidServer(RevisionsOf(t, b), digest) {
      if b != a {
        assert RevisionsOf(t, b) == RevisionsOf(s, b);
      }
    }
    forall b | UpToDate(s, b) || b == a ensures UpToDate(t, b) {
      if b != a {
        assert RevisionsOf(t, b) == RevisionsOf(s, b);
      }
    }
    forall b | b !in t.d.agents ensures RevisionsOf(t, b).snapshots == map[] || UpToDate(t, b) {
      if b != a {
        assert RevisionsOf(t, b) == RevisionsOf(s, b);
      }
    }
  }

  /** Replacing one agent's row by a later one that is no less up to date. */
  lemma RowKeeps(s: State, a: string, row: ServerState, digest: Content -> string)
    requires Inv(s, digest) && ValidServer(row, digest)
    requires UpToDate(s, a) ==> UpToDate(s.(revisions := s.revisions[a := row]), a)
    requires a !in s.d.agents && RevisionsOf(s, a).snapshots == map[] ==> UpToDate(s.(revisions := s.revisions[a := row]), a)
    ensures Inv(s.(revisions := s.revisions[a := row]), digest)
  {
    var t := s.(revisions := s.revisions[a := row]);
    forall b ensures ValidServer(RevisionsOf(t, b), digest) {
      if b != a {
        assert RevisionsOf(t, b) == RevisionsOf(s, b);
      }
    }
    forall b | b != a ensures UpToDate(t, b) == UpToDate(s, b) && RevisionsOf(t, b) == RevisionsOf(s, b) {
    }
  }

  lemma AskKeeps(s: State, a: string, heartbeat: bool, supported: Entry -> bool, digest: Content -> string)
    requires IsDigest(digest) && Inv(s, digest)
    ensures Inv(Next(s, Ask(a, heartbeat, supported), digest), digest)
  {
    var row := RevisionsOf(s, a);
    if Issued(row, heartbeat, Built(s.d, a), supported, digest).Ok? {
      IssueKeeps(row, heartbeat, Built(s.d, a), supported, digest);
      var after := Issued(row, heartbeat, Built(s.d, a), supported, digest).value.0;
      RowKeeps(s, a, after, digest);
    }
  }

  lemma AcknowledgeStepKeeps(s: State, a: string, revision: nat, hash: string, digest: Content -> string)
    requires Inv(s, digest)
    ensures Inv(Next(s, Acknowledge(a, revision, hash), digest), digest)
  {
    var row := RevisionsOf(s, a);
    if AcknowledgedBy(row, revision, hash).Ok? {
      AcknowledgeKeeps(row, revision, hash, digest);
      RowKeeps(s, a, AcknowledgedBy(row, revision, hash).value, digest);
    }
  }

  lemma RestartKeeps(s: State, digest: Content -> string)
    requires Inv(s, digest)
    ensures Inv(Next(s, Restart, digest), digest)
  {
    var t := Next(s, Restart, digest);
    forall a ensures RevisionsOf(t, a) == RevisionsOf(s, a) && UpToDate(t, a) == UpToDate(s, a) {
    }
  }

  lemma {:induction false} RunKeeps(steps: seq<Step>, digest: Content -> string)
    requires IsDigest(digest)
    ensures Inv(Run(steps, digest), digest)
  {
    if steps != [] {
      var s, step := Run(steps[..|steps| - 1], digest), steps[|steps| - 1];
      RunKeeps(steps[..|steps| - 1], digest);
      match step
      case Operate(op) =>
        if Changed(s.d, op).Ok? {
          OperateKeeps(s, op, digest);
        }
      case Raise(a) => RaiseKeeps(s, a, digest);
      case Ask(a, heartbeat, supported) => AskKeeps(s, a, heartbeat, supported, digest);
      case Acknowledge(a, revision, hash) => AcknowledgeStepKeeps(s, a, revision, hash, digest);
      case Restart => RestartKeeps(s, digest);
    }
  }

  // ---------------------------------------------------------------- theorems

  /**
  In every run, for an active agent with no revision owed or lost, the snapshot stored at its desired
  revision is exactly what would be built afresh, so its request is never refused with a conflict.
  */
  lemma NoConflictBetweenOperations(steps: seq<Step>, a: string, heartbeat: bool, supported: Entry -> bool, digest: Digest)
    requires var s := Run(steps, digest); ActiveAgent(s.d, a) && a !in s.owed && a !in s.lost
    ensures var s := Run(steps, digest);
            UpToDate(s, a) && Issued(RevisionsOf(s, a), heartbeat, Built(s.d, a), supported, digest) != Err(RevisionConflict)
  {
    RunKeeps(steps, digest);
  }

  /** The revision a request would be answered with. */
  function AnsweredRevision(r: ServerState): nat {
    if r.desired == 0 then 1 else r.desired
  }

  /**
  When exactly an agent is refused with a conflict, in every run: a raise is owed to it or was lost, and the
  revision it would be answered with was already issued for assignments that hash differently.
  */
  lemma ConflictIff(steps: seq<Step>, a: string, supported: Entry -> bool, digest: Digest)
    requires var s := Run(steps, digest); ActiveAgent(s.d, a) && forall e :: e in Built(s.d, a) ==> supported(e)
    ensures var s := Run(steps, digest);
            var r := RevisionsOf(s, a);
            Issued(r, true, Built(s.d, a), supported, digest) == Err(RevisionConflict) <==>
            (a in s.owed || a in s.lost) && AnsweredRevision(r) in r.snapshots && r.snapshots[AnsweredRevision(r)].hash != digest(Built(s.d, a))
  {
    RunKeeps(steps, digest);
    if a !in Run(steps, digest).owed && a !in Run(steps, digest).lost {
      NoConflictBetweenOperations(steps, a, true, supported, digest);
    }
  }

  /**
  The two commits are not one: a process that stops after an operation and before raising the
  revision leaves an active agent refused from then on, until some later operation raises it.
  */
  lemma LostRaiseConflicts(digest: Content -> string, behavior: Behavior)
    requires IsDigest(digest) && ValidSchedule(behavior)
    requires digest([]) != digest([Entry("m", "t", 1, "host", behavior.probeType, behavior.schemaVersion,
                                         behavior.interval, behavior.timeout, behavior.configuration)])
    ensures exists steps :: var s := Run(steps, digest);
              ActiveAgent(s.d, "a") && s.owed == {}
              && Issued(RevisionsOf(s, "a"), true, Built(s.d, "a"), (_: Entry) => true, digest) == Err(RevisionConflict)
  {
    var steps := LostSteps(digest, behavior);
    Refused(Run(steps, digest), digest, behavior);
  }

  lemma Refused(s: State, digest: Content -> string, behavior: Behavior)
    requires s == State(OneLink(behavior), map["a" := EmptyRow(digest)], {}, {"a"}) && IsDigest(digest)
    requires digest([]) != digest([EntryOf(OneMonitor(behavior), "m")])
    ensures ActiveAgent(s.d, "a") && s.owed == {}
    ensures Issued(RevisionsOf(s, "a"), true, Built(s.d, "a"), (_: Entry) => true, digest) == Err(RevisionConflict)
  {
    OneEntry(OneLink(behavior), EntryOf(OneMonitor(behavior), "m"));
  }

  lemma LostSteps(digest: Content -> string, behavior: Behavior) returns (steps: seq<Step>)
    requires IsDigest(digest) && ValidSchedule(behavior)
    ensures Run(steps, digest) == State(OneLink(behavior), map["a" := EmptyRow(digest)], {}, {"a"})
  {
    var d := OneMonitor(behavior);
    var setup := [Operate(CreateAgent("r", "a", true)), Operate(CreateTarget("r", "t", "host", true)),
                  Operate(CreateMonitor("r", "m", "t", behavior))];
    SetupRun(setup, d, behavior, digest);
    var asked := setup + [Ask("a", true, (_: Entry) => true)];
    AskedRun(setup, asked, d, digest);
    var granted := asked + [Operate(AssignToAgent("r", "m", "a"))];
    steps := granted + [Restart];
    LostRun(asked, granted, steps, behavior, digest);
  }

  function OneMonitor(behavior: Behavior): Tables {
    Tables(map["a" := Agent("r", true, false)], map[], map["t" := Target("r", "host", true, false)],
           map["m" := Monitor("r", "t", behavior, true, false, 1)], map[], map[], map[])
  }

  function OneLink(behavior: Behavior): Tables {
    OneMonitor(behavior).(direct := map[("m", "a") := Link("r", true)])
  }

  function EmptyRow(digest: Content -> string): ServerState {
    ServerState(1, digest([]), 0, "", map[1 := Snapshot(digest([]), [])])
  }

  lemma AskedRun(setup: seq<Step>, asked: seq<Step>, d: Tables, digest: Content -> string)
    requires IsDigest(digest) && Run(setup, digest) == EMPTY.(d := d) && asked == setup + [Ask("a", true, (_: Entry) => true)]
    requires exists behavior :: d == OneMonitor(behavior)
    ensures Run(asked, digest) == State(d, map["a" := EmptyRow(digest)], {}, {})
  {
    assert asked[..|asked| - 1] == setup;
    assert Built(d, "a") == [];
  }

  /** The assignment commits and its raise is lost. */
  lemma LostRun(asked: seq<Step>, granted: seq<Step>, steps: seq<Step>, behavior: Behavior, digest: Content -> string)
    requires Run(asked, digest) == State(OneMonitor(behavior), map["a" := EmptyRow(digest)], {}, {})
    requires granted == asked + [Operate(AssignToAgent("r", "m", "a"))] && steps == granted + [Restart]
    ensures Run(steps, digest) == State(OneLink(behavior), map["a" := EmptyRow(digest)], {}, {"a"})
  {
    assert granted[..|granted| - 1] == asked && steps[..|steps| - 1] == granted;
    assert Changed(OneMonitor(behavior), AssignToAgent("r", "m", "a")) == Ok((OneLink(behavior), {"a"}));
    assert Run(granted, digest) == State(OneLink(behavior), map["a" := EmptyRow(digest)], {"a"}, {});
  }

  lemma SetupRun(setup: seq<Step>, d: Tables, behavior: Behavior, digest: Content -> string)
    requires ValidSchedule(behavior)
    requires setup == [Operate(CreateAgent("r", "a", true)), Operate(CreateTarget("r", "t", "host", true)),
                       Operate(CreateMonitor("r", "m", "t", behavior))]
    requires d == Tables(map["a" := Agent("r", true, false)], map[], map["t" := Target("r", "host", true, false)],
                         map["m" := Monitor("r", "t", behavior, true, false, 1)], map[], map[], map[])
    ensures Run(setup, digest) == EMPTY.(d := d)
  {
    assert setup[..2][..1] == setup[..1] && setup[..1][..0] == [];
    assert Run(setup[..1], digest) == EMPTY.(d := EMPTY.d.(agents := d.agents));
    assert Run(setup[..2], digest) == EMPTY.(d := EMPTY.d.(agents := d.agents, targets := d.targets));
  }

  lemma OneEntry(d: Tables, e: Entry)
    requires Entries(d, "a") == map["m" := e]
    ensures Built(d, "a") == [e]
  {
    var entries := Entries(d, "a");
    assert "m" in entries.Keys;
    LeastExists(entries.Keys);
    var k :| IsLeast(entries.Keys, k) && Listed(entries) == [entries[k]] + Listed(entries - {k});
    assert entries - {"m"} == map[];
  }
}
