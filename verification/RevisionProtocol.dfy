/**
The configuration protocol between the control plane and one agent, as a step system.

The assignments behind the agent's configuration change and the desired revision is raised at any
time.  A configuration request may be served late, or more than once; a reply reaches the agent only
on the exchange it belongs to; acknowledgements may be delivered late, repeatedly, in any order or
never; the agent may crash between any two steps and keeps only its snapshot table.
*/
module RevisionProtocol {
  import opened Options
  import opened Configuration

  datatype Request = Request(token: nat, activeRevision: int, activeHash: string)

  datatype Reply = NotModified | Desired(revision: nat, snapshot: Snapshot)

  datatype Response = Response(token: nat, reply: Reply)

  datatype Ack = Ack(revision: nat, hash: string)

  /** Where the agent's synchronization call stands; lost in a crash. */
  datatype Phase = Idle | Waiting(token: nat) | Acknowledging(ack: Ack)

  datatype State = State(
    server: ServerState,
    current: Content,              // what a snapshot built now would contain
    rows: Snapshots,               // the agent's table
    phase: Phase,
    nextToken: nat,
    requests: set<Request>,
    responses: set<Response>,
    acks: set<Ack>,
    activated: map<int, Content>)  // history: every snapshot the agent ever activated

  datatype Step =
    | Change(content: Content)
    | Bump
    | Poll
    | Serve(request: Request, heartbeat: bool, supported: Entry -> bool)
    | Receive(response: Response, runnable: bool)
    | SendAck
    | DeliverAck(ack: Ack)
    | GiveUp
    | Crash

  ghost const INITIAL := State(FRESH_STATE, [], map[], Idle, 0, {}, {}, {}, map[])

  ghost function ActiveHash(rows: Snapshots): string {
    var r := ActiveRevision(rows);
    if r in rows then rows[r].hash else ""
  }

  ghost function Served(s: State, request: Request, heartbeat: bool, supported: Entry -> bool, digest: Content -> string): State {
    match Issued(s.server, heartbeat, s.current, supported, digest)
    case Err(_) => s
    case Ok((server, revision)) =>
      if revision !in server.snapshots then s
      else
        var snapshot := server.snapshots[revision];
        var reply := if request.activeRevision == revision && request.activeHash == snapshot.hash then NotModified
                     else Desired(revision, snapshot);
        s.(server := server, responses := s.responses + {Response(request.token, reply)})
  }

  /** `runnable` is the verdict of capability and probe validation. */
  ghost function Received(s: State, reply: Reply, runnable: bool, digest: Content -> string): State {
    match reply
    case NotModified =>
      var r := ActiveRevision(s.rows);
      s.(phase := if r >= 1 then Acknowledging(Ack(r, ActiveHash(s.rows))) else Idle)
    case Desired(revision, snapshot) =>
      if !runnable || !DistinctMonitors(snapshot.content) || revision < 1 || digest(snapshot.content) != snapshot.hash then s.(phase := Idle)
      else
        match Activated(s.rows, revision, snapshot.hash, snapshot.content)
        case Err(_) => s.(phase := Idle)
        case Ok(rows) =>
          s.(rows := rows, phase := Acknowledging(Ack(revision, snapshot.hash)),
             activated := s.activated[revision := snapshot.content])
  }

  /** A reply that was altered, repeats a monitor or cannot be run is never activated. */
  lemma AlteredReplyIsRefused(s: State, revision: nat, snapshot: Snapshot, runnable: bool, digest: Content -> string)
    requires !runnable || !DistinctMonitors(snapshot.content) || digest(snapshot.content) != snapshot.hash || revision < 1
    ensures Received(s, Desired(revision, snapshot), runnable, digest) == s.(phase := Idle)
  {
  }

  ghost function Next(s: State, step: Step, digest: Content -> string): State {
    match step
    case Change(content) => if DistinctMonitors(content) then s.(current := content) else s
    case Bump => s.(server := Bumped(s.server))
    case Poll =>
      if !s.phase.Idle? then s
      else s.(phase := Waiting(s.nextToken), nextToken := s.nextToken + 1,
              requests := s.requests + {Request(s.nextToken, ActiveRevision(s.rows), ActiveHash(s.rows))})
    case Serve(request, heartbeat, supported) =>
      if request in s.requests then Served(s, request, heartbeat, supported, digest) else s
    case Receive(response, runnable) =>
      if response in s.responses && s.phase == Waiting(response.token) then Received(s, response.reply, runnable, digest) else s
    case SendAck =>
      if s.phase.Acknowledging? then s.(phase := Idle, acks := s.acks + {s.phase.ack}) else s
    case DeliverAck(ack) =>
      if ack in s.acks then
        match AcknowledgedBy(s.server, ack.revision, ack.hash)
        case Ok(server) => s.(server := server)
        case Err(_) => s
      else s
    case GiveUp => s.(phase := Idle)
    case Crash => s.(phase := Idle)
  }

  ghost function Run(s: State, steps: seq<Step>, digest: Content -> string): State {
    if steps == [] then s else Next(Run(s, steps[..|steps| - 1], digest), steps[|steps| - 1], digest)
  }

  // ---------------------------------------------------------------- invariant

  ghost predicate IssuedSnapshot(s: State, revision: int, hash: string) {
    revision >= 1 && revision in s.server.snapshots && s.server.snapshots[revision].hash == hash
  }

  /** The agent's rows and history are snapshots the server issued. */
  ghost predicate AgentHolds(s: State) {
    && ValidSnapshots(s.rows)
    && (forall r :: r in s.rows ==> r in s.activated && r in s.server.snapshots
                                    && s.server.snapshots[r] == Snapshot(s.rows[r].hash, s.rows[r].content))
    && (forall r :: r in s.activated ==> r in s.server.snapshots && s.server.snapshots[r].content == s.activated[r])
    && (ActiveRevision(s.rows) >= 1 ==> ActiveRevision(s.rows) in s.rows)
    && (forall r :: r in s.activated ==> r <= ActiveRevision(s.rows))
  }

  ghost predicate NetworkHolds(s: State) {
    && (forall q :: q in s.requests ==> q.token < s.nextToken)
    && (forall p :: p in s.responses ==> p.token < s.nextToken)
    && (s.phase.Waiting? ==> s.phase.token < s.nextToken)
    && (forall p :: p in s.responses && p.reply.Desired? ==>
          p.reply.revision in s.server.snapshots && s.server.snapshots[p.reply.revision] == p.reply.snapshot)
    && (forall p :: p in s.responses && p.reply.Desired? && s.phase == Waiting(p.token) ==>
          p.reply.revision >= ActiveRevision(s.rows))
  }

  ghost predicate AcksHold(s: State) {
    && (forall a :: a in s.acks ==> IssuedSnapshot(s, a.revision, a.hash) && a.revision <= ActiveRevision(s.rows))
    && (s.phase.Acknowledging? ==> IssuedSnapshot(s, s.phase.ack.revision, s.phase.ack.hash)
                                   && s.phase.ack.revision <= ActiveRevision(s.rows))
    && s.server.acknowledged <= ActiveRevision(s.rows)
  }

  ghost predicate ContentHolds(s: State) {
    DistinctMonitors(s.current) && forall r :: r in s.server.snapshots ==> DistinctMonitors(s.server.snapshots[r].content)
  }

  ghost predicate Inv(s: State, digest: Content -> string) {
    ContentHolds(s) && ValidServer(s.server, digest) && AgentHolds(s) && NetworkHolds(s) && AcksHold(s)
  }

  /** What no step takes back. */
  ghost predicate Progress(s: State, t: State) {
    && ServerExtends(s.server, t.server)
    && ActiveRevision(s.rows) <= ActiveRevision(t.rows)
    && forall r :: r in s.activated ==> r in t.activated && t.activated[r] == s.activated[r]
  }

  lemma ActiveIsZero()
    ensures ActiveRevision(map[]) == 0
  {
  }

  lemma ActiveRowExists(rows: Snapshots)
    ensures ActiveRevision(rows) == 0 || (ActiveRevision(rows) in rows && rows[ActiveRevision(rows)].active)
  {
  }

  lemma ServedNetwork(s: State, server: ServerState, response: Response)
    requires NetworkHolds(s) && ServerExtends(s.server, server) && response.token < s.nextToken
    requires response.reply.Desired? ==>
               response.reply.revision in server.snapshots && server.snapshots[response.reply.revision] == response.reply.snapshot
               && response.reply.revision >= ActiveRevision(s.rows)
    ensures NetworkHolds(s.(server := server, responses := s.responses + {response}))
  {
  }

  lemma ServedHolds(s: State, server: ServerState, responses: set<Response>)
    requires AgentHolds(s) && AcksHold(s) && ServerExtends(s.server, server) && server.acknowledged == s.server.acknowledged
    ensures AgentHolds(s.(server := server, responses := responses)) && AcksHold(s.(server := server, responses := responses))
  {
  }

  lemma ServeKeeps(s: State, request: Request, heartbeat: bool, supported: Entry -> bool, digest: Content -> string)
    requires IsDigest(digest) && Inv(s, digest) && request in s.requests
    ensures Inv(Served(s, request, heartbeat, supported, digest), digest)
    ensures Progress(s, Served(s, request, heartbeat, supported, digest))
  {
    if Issued(s.server, heartbeat, s.current, supported, digest).Ok? {
      IssueKeeps(s.server, heartbeat, s.current, supported, digest);
      var (server, revision) := Issued(s.server, heartbeat, s.current, supported, digest).value;
      var snapshot := server.snapshots[revision];
      var response := Response(request.token, if request.activeRevision == revision && request.activeHash == snapshot.hash then NotModified
                                              else Desired(revision, snapshot));
      ActiveIsIssued(s, digest);
      ServedNetwork(s, server, response);
      ServedHolds(s, server, s.responses + {response});
    }
  }

  lemma ActiveIsIssued(s: State, digest: Content -> string)
    requires AgentHolds(s) && ValidServer(s.server, digest)
    ensures ActiveRevision(s.rows) <= s.server.desired
  {
  }

  /** The agent has taken up `snapshot` as revision `revision`. */
  ghost function TakenUp(s: State, revision: nat, snapshot: Snapshot, rows: Snapshots): State {
    s.(rows := rows, phase := Acknowledging(Ack(revision, snapshot.hash)), activated := s.activated[revision := snapshot.content])
  }

  ghost predicate Offered(s: State, revision: nat, snapshot: Snapshot) {
    && revision >= 1 && revision >= ActiveRevision(s.rows)
    && revision in s.server.snapshots && s.server.snapshots[revision] == snapshot
  }

  lemma TakenUpAgent(s: State, revision: nat, snapshot: Snapshot)
    requires AgentHolds(s) && Offered(s, revision, snapshot) && Activated(s.rows, revision, snapshot.hash, snapshot.content).Ok?
    ensures var rows := Activated(s.rows, revision, snapshot.hash, snapshot.content).value;
            AgentHolds(TakenUp(s, revision, snapshot, rows)) && ActiveRevision(rows) == revision
            && forall r :: r in s.activated ==> TakenUp(s, revision, snapshot, rows).activated[r] == s.activated[r]
  {
    ActivationEffect(s.rows, revision, snapshot.hash, snapshot.content);
    assert revision in s.activated ==> s.activated[revision] == snapshot.content;
  }

  lemma TakenUpNetwork(s: State, revision: nat, snapshot: Snapshot, rows: Snapshots)
    requires NetworkHolds(s) && AcksHold(s) && Offered(s, revision, snapshot) && ActiveRevision(rows) == revision
    ensures NetworkHolds(TakenUp(s, revision, snapshot, rows)) && AcksHold(TakenUp(s, revision, snapshot, rows))
  {
  }

  lemma ActivateKeeps(s: State, response: Response, runnable: bool, digest: Content -> string)
    requires Inv(s, digest) && response in s.responses && s.phase == Waiting(response.token) && response.reply.Desired?
    ensures Inv(Received(s, response.reply, runnable, digest), digest)
    ensures Progress(s, Received(s, response.reply, runnable, digest))
  {
    var Desired(revision, snapshot) := response.reply;
    if runnable && DistinctMonitors(snapshot.content) && revision >= 1 && digest(snapshot.content) == snapshot.hash
       && Activated(s.rows, revision, snapshot.hash, snapshot.content).Ok?
    {
      TakenUpAgent(s, revision, snapshot);
      TakenUpNetwork(s, revision, snapshot, Activated(s.rows, revision, snapshot.hash, snapshot.content).value);
    } else {
      IdleKeeps(s, digest);
      assert Received(s, response.reply, runnable, digest) == s.(phase := Idle);
    }
  }

  lemma NotModifiedKeeps(s: State, response: Response, runnable: bool, digest: Content -> string)
    requires Inv(s, digest) && response.reply.NotModified?
    ensures Inv(Received(s, response.reply, runnable, digest), digest)
    ensures Progress(s, Received(s, response.reply, runnable, digest))
  {
    ActiveRowExists(s.rows);
  }

  lemma PollKeeps(s: State, digest: Content -> string)
    requires Inv(s, digest)
    ensures Inv(Next(s, Poll, digest), digest) && Progress(s, Next(s, Poll, digest))
  {
  }

  lemma AckKeeps(s: State, ack: Ack, digest: Content -> string)
    requires Inv(s, digest)
    ensures Inv(Next(s, DeliverAck(ack), digest), digest) && Progress(s, Next(s, DeliverAck(ack), digest))
  {
    if ack in s.acks && AcknowledgedBy(s.server, ack.revision, ack.hash).Ok? {
      AcknowledgeKeeps(s.server, ack.revision, ack.hash, digest);
    }
  }

  lemma StepKeeps(s: State, step: Step, digest: Content -> string)
    requires IsDigest(digest) && Inv(s, digest)
    ensures Inv(Next(s, step, digest), digest) && Progress(s, Next(s, step, digest))
  {
    match step
    case Change(content) =>
      if DistinctMonitors(content) {
        assert Inv(s.(current := content), digest);
      }
    case Bump => RaiseKeeps(s, digest);
    case Poll => PollKeeps(s, digest);
    case Serve(request, heartbeat, supported) =>
      if request in s.requests {
        ServeKeeps(s, request, heartbeat, supported, digest);
      }
    case Receive(response, runnable) =>
      if response in s.responses && s.phase == Waiting(response.token) {
        if response.reply.Desired? {
          ActivateKeeps(s, response, runnable, digest);
        } else {
          NotModifiedKeeps(s, response, runnable, digest);
        }
      }
    case SendAck => SendAckKeeps(s, digest);
    case DeliverAck(ack) => AckKeeps(s, ack, digest);
    case GiveUp => IdleKeeps(s, digest);
    case Crash => IdleKeeps(s, digest);
  }

  lemma RaiseKeeps(s: State, digest: Content -> string)
    requires Inv(s, digest)
    ensures Inv(s.(server := Bumped(s.server)), digest) && Progress(s, s.(server := Bumped(s.server)))
  {
    BumpKeeps(s.server, digest);
  }

  lemma SendAckKeeps(s: State, digest: Content -> string)
    requires Inv(s, digest)
    ensures Inv(Next(s, SendAck, digest), digest) && Progress(s, Next(s, SendAck, digest))
  {
  }

  lemma IdleKeeps(s: State, digest: Content -> string)
    requires Inv(s, digest)
    ensures Inv(s.(phase := Idle), digest) && Progress(s, s.(phase := Idle))
  {
  }

  lemma {:induction false} RunKeeps(s: State, steps: seq<Step>, digest: Content -> string)
    requires IsDigest(digest) && Inv(s, digest)
    ensures Inv(Run(s, steps, digest), digest) && Progress(s, Run(s, steps, digest))
  {
    if steps != [] {
      RunKeeps(s, steps[..|steps| - 1], digest);
      StepKeeps(Run(s, steps[..|steps| - 1], digest), steps[|steps| - 1], digest);
    }
  }

  lemma InitialHolds(digest: Content -> string)
    ensures Inv(INITIAL, digest)
  {
    ActiveIsZero();
  }

  // ---------------------------------------------------------------- theorems

  /**
  In every reachable state acknowledged <= active <= desired; the table CHECK on the revision row
  holds; and what the server counts as acknowledged is a snapshot it issued.
  */
  lemma RevisionChain(steps: seq<Step>, digest: Digest)
    ensures var s := Run(INITIAL, steps, digest);
            && 0 <= s.server.acknowledged <= ActiveRevision(s.rows) <= s.server.desired
            && (s.server.acknowledged > 0 ==> IssuedSnapshot(s, s.server.acknowledged, s.server.acknowledgedHash))
            && (ActiveRevision(s.rows) > 0 ==> IssuedSnapshot(s, ActiveRevision(s.rows), ActiveHash(s.rows)))
  {
    InitialHolds(digest);
    RunKeeps(INITIAL, steps, digest);
    var s := Run(INITIAL, steps, digest);
    assert ActiveRevision(s.rows) > 0 ==> ActiveRevision(s.rows) in s.rows;
  }

  lemma {:induction false} RunConcat(s: State, xs: seq<Step>, ys: seq<Step>, digest: Content -> string)
    ensures Run(s, xs + ys, digest) == Run(Run(s, xs, digest), ys, digest)
  {
    if ys == [] {
      assert xs + ys == xs;
    } else {
      assert (xs + ys)[..|xs + ys| - 1] == xs + ys[..|ys| - 1];
      RunConcat(s, xs, ys[..|ys| - 1], digest);
    }
  }

  /** None of the three revisions ever decreases, and issued or activated content never changes. */
  lemma RevisionsNeverDecrease(past: seq<Step>, future: seq<Step>, digest: Digest)
    ensures Progress(Run(INITIAL, past, digest), Run(INITIAL, past + future, digest))
  {
    InitialHolds(digest);
    RunKeeps(INITIAL, past, digest);
    RunConcat(INITIAL, past, future, digest);
    RunKeeps(Run(INITIAL, past, digest), future, digest);
  }

  /** Whatever the agent ever activated is, for good, the server's snapshot of that revision. */
  lemma ActivatedIsIssued(past: seq<Step>, future: seq<Step>, revision: int, digest: Digest)
    requires revision in Run(INITIAL, past, digest).activated
    ensures var s := Run(INITIAL, past + future, digest);
            && revision in s.server.snapshots
            && s.server.snapshots[revision].content == Run(INITIAL, past, digest).activated[revision]
  {
    RevisionsNeverDecrease(past, future, digest);
    InitialHolds(digest);
    RunKeeps(INITIAL, past + future, digest);
  }

  /**
  One undisturbed synchronization brings the three revisions together, from whatever state delays
  and crashes have left: acknowledged == active == desired, and the active snapshot hashes like the
  present assignments.
  */
  lemma UndisturbedRoundConverges(past: seq<Step>, supported: Entry -> bool, digest: Digest)
    returns (request: Request, response: Response, ack: Ack)
    requires Issued(Run(INITIAL, past, digest).server, true, Run(INITIAL, past, digest).current, supported, digest).Ok?
    ensures Converged(Run(INITIAL, past + Round(request, response, ack, supported, true), digest), digest)
  {
    request, response, ack := RoundConvergesIff(past, supported, digest);
  }

  /** With the agent's verdict left open, the round converges exactly when it is favourable or there was nothing new to take up. */
  lemma RoundConvergesIff(past: seq<Step>, supported: Entry -> bool, digest: Digest)
    returns (request: Request, response: Response, ack: Ack)
    requires Issued(Run(INITIAL, past, digest).server, true, Run(INITIAL, past, digest).current, supported, digest).Ok?
    ensures forall runnable :: Converged(Run(INITIAL, past + Round(request, response, ack, supported, runnable), digest), digest) <==>
                               runnable || response.reply.NotModified?
    ensures response.reply.Desired? ==> response.reply.snapshot.hash == digest(Run(INITIAL, past, digest).current) == digest(response.reply.snapshot.content)
  {
    InitialHolds(digest);
    RunKeeps(INITIAL, past, digest);
    request, response, ack := OneRound(Run(INITIAL, past, digest), supported, digest);
    RunConcat(INITIAL, past, Round(request, response, ack, supported, true), digest);
    RunConcat(INITIAL, past, Round(request, response, ack, supported, false), digest);
  }

  /** One synchronization from a fresh start: ask, be served, take up the answer, acknowledge. */
  function Round(request: Request, response: Response, ack: Ack, supported: Entry -> bool, runnable: bool): seq<Step> {
    [Crash, Poll, Serve(request, true, supported), Receive(response, runnable), SendAck, DeliverAck(ack)]
  }

  ghost predicate Converged(s: State, digest: Content -> string) {
    s.server.acknowledged == ActiveRevision(s.rows) == s.server.desired >= 1 && ActiveHash(s.rows) == digest(s.current)
  }

  lemma OneRound(s: State, supported: Entry -> bool, digest: Content -> string)
    returns (request: Request, response: Response, ack: Ack)
    requires IsDigest(digest) && Inv(s, digest) && Issued(s.server, true, s.current, supported, digest).Ok?
    ensures forall runnable ::
              Converged(Run(s, Round(request, response, ack, supported, runnable), digest), digest) <==> runnable || response.reply.NotModified?
    ensures response.reply.Desired? ==> response.reply.snapshot.hash == digest(s.current) == digest(response.reply.snapshot.content)
  {
    var revision, snapshot;
    request, response, revision, snapshot := AskAndServe(s, supported, digest);
    ack := Ack(revision, snapshot.hash);
    var ask := [Crash, Poll, Serve(request, true, supported)];
    RunKeeps(s, ask, digest);
    AnswerTaken(Run(s, ask, digest), response, revision, snapshot, digest, true);
    AnswerTaken(Run(s, ask, digest), response, revision, snapshot, digest, false);
    RoundInTwo(s, request, response, ack, supported, digest, true);
    RoundInTwo(s, request, response, ack, supported, digest, false);
  }

  lemma RoundInTwo(s: State, request: Request, response: Response, ack: Ack, supported: Entry -> bool, digest: Content -> string, runnable: bool)
    ensures Run(s, Round(request, response, ack, supported, runnable), digest) ==
              Run(Run(s, [Crash, Poll, Serve(request, true, supported)], digest), [Receive(response, runnable), SendAck, DeliverAck(ack)], digest)
  {
    var ask, answer := [Crash, Poll, Serve(request, true, supported)], [Receive(response, runnable), SendAck, DeliverAck(ack)];
    RunConcat(s, ask, answer, digest);
    assert Round(request, response, ack, supported, runnable) == ask + answer;
  }

  /** The second half of the round. */
  lemma AnswerTaken(s: State, response: Response, revision: nat, snapshot: Snapshot, digest: Content -> string, runnable: bool)
    requires Inv(s, digest) && response in s.responses && s.phase == Waiting(response.token) && revision == s.server.desired >= 1
    requires revision in s.server.snapshots && s.server.snapshots[revision] == snapshot && snapshot.hash == digest(s.current) != ""
    requires if ActiveRevision(s.rows) == revision && ActiveHash(s.rows) == snapshot.hash then response.reply == NotModified
             else response.reply == Desired(revision, snapshot)
    ensures var t := Run(s, [Receive(response, runnable), SendAck, DeliverAck(Ack(revision, snapshot.hash))], digest);
            Converged(t, digest) <==> runnable || response.reply.NotModified?
    ensures snapshot.hash == digest(snapshot.content)
  {
    if runnable || response.reply.NotModified? {
      ActivateAndAcknowledge(s, response, runnable, revision, snapshot, digest);
    } else {
      RunThree(s, Receive(response, false), SendAck, DeliverAck(Ack(revision, snapshot.hash)), digest);
      RefusedStays(s, response, revision, snapshot, digest);
    }
  }

  lemma RefusedStays(s: State, response: Response, revision: nat, snapshot: Snapshot, digest: Content -> string)
    requires Inv(s, digest) && response.reply == Desired(revision, snapshot) && revision == s.server.desired
    requires revision in s.server.snapshots && s.server.snapshots[revision] == snapshot
    requires !(ActiveRevision(s.rows) == revision && ActiveHash(s.rows) == snapshot.hash)
    ensures var t := Next(Next(Next(s, Receive(response, false), digest), SendAck, digest), DeliverAck(Ack(revision, snapshot.hash)), digest);
            (response in s.responses && s.phase == Waiting(response.token)) ==> ActiveRevision(t.rows) != t.server.desired
  {
    assert ActiveRevision(s.rows) != revision;
  }

  lemma RunThree(s: State, a: Step, b: Step, c: Step, digest: Content -> string)
    ensures Run(s, [a, b, c], digest) == Next(Next(Next(s, a, digest), b, digest), c, digest)
  {
    assert [a, b, c][..2] == [a, b];
    assert [a, b][..1] == [a];
    assert [a][..0] == [];
    assert Run(s, [a], digest) == Next(s, a, digest);
    assert Run(s, [a, b], digest) == Next(Run(s, [a], digest), b, digest);
  }

  lemma AskAndServe(s: State, supported: Entry -> bool, digest: Content -> string)
    returns (request: Request, response: Response, revision: nat, snapshot: Snapshot)
    requires IsDigest(digest) && Inv(s, digest) && Issued(s.server, true, s.current, supported, digest).Ok?
    ensures var t := Run(s, [Crash, Poll, Serve(request, true, supported)], digest);
            && response in t.responses && t.phase == Waiting(response.token) && t.current == s.current
            && revision == t.server.desired >= 1
            && revision in t.server.snapshots && t.server.snapshots[revision] == snapshot && snapshot.hash == digest(s.current) != ""
            && (if ActiveRevision(t.rows) == revision && ActiveHash(t.rows) == snapshot.hash then response.reply == NotModified
                else response.reply == Desired(revision, snapshot))
  {
    request := Request(s.nextToken, ActiveRevision(s.rows), ActiveHash(s.rows));
    RunThree(s, Crash, Poll, Serve(request, true, supported), digest);
    IssueKeeps(s.server, true, s.current, supported, digest);
    var server := Issued(s.server, true, s.current, supported, digest).value.0;
    revision := Issued(s.server, true, s.current, supported, digest).value.1;
    snapshot := server.snapshots[revision];
    response := Response(request.token, if request.activeRevision == revision && request.activeHash == snapshot.hash then NotModified
                                        else Desired(revision, snapshot));
  }

  lemma ActivateAndAcknowledge(s: State, response: Response, runnable: bool, revision: nat, snapshot: Snapshot, digest: Content -> string)
    requires Inv(s, digest) && response in s.responses && s.phase == Waiting(response.token)
    requires revision == s.server.desired >= 1
    requires revision in s.server.snapshots && s.server.snapshots[revision] == snapshot && snapshot.hash != ""
    requires if ActiveRevision(s.rows) == revision && ActiveHash(s.rows) == snapshot.hash then response.reply == NotModified
             else response.reply == Desired(revision, snapshot)
    requires runnable || response.reply.NotModified?
    ensures var t := Run(s, [Receive(response, runnable), SendAck, DeliverAck(Ack(revision, snapshot.hash))], digest);
            && t.server.acknowledged == ActiveRevision(t.rows) == t.server.desired == revision
            && ActiveHash(t.rows) == snapshot.hash && t.current == s.current
  {
    var ack := Ack(revision, snapshot.hash);
    RunThree(s, Receive(response, runnable), SendAck, DeliverAck(ack), digest);
    ReceiveActivates(s, response, runnable, revision, snapshot, digest);
    AckArrives(Next(s, Receive(response, runnable), digest), ack, digest);
  }

  lemma AckArrives(s: State, ack: Ack, digest: Content -> string)
    requires s.phase == Acknowledging(ack) && s.server.acknowledged <= ack.revision
    requires ack.revision in s.server.snapshots && s.server.snapshots[ack.revision].hash == ack.hash
    ensures var t := Next(Next(s, SendAck, digest), DeliverAck(ack), digest);
            t.server.acknowledged == ack.revision && t.server.desired == s.server.desired && t.rows == s.rows && t.current == s.current
  {
  }

  lemma ReceiveActivates(s: State, response: Response, runnable: bool, revision: nat, snapshot: Snapshot, digest: Content -> string)
    requires Inv(s, digest) && response in s.responses && s.phase == Waiting(response.token)
    requires revision >= 1 && revision in s.server.snapshots && s.server.snapshots[revision] == snapshot && snapshot.hash != ""
    requires if ActiveRevision(s.rows) == revision && ActiveHash(s.rows) == snapshot.hash then response.reply == NotModified
             else response.reply == Desired(revision, snapshot)
    requires runnable || response.reply.NotModified?
    ensures var t := Next(s, Receive(response, runnable), digest);
            && t.phase == Acknowledging(Ack(revision, snapshot.hash)) && t.server == s.server && t.current == s.current
            && ActiveRevision(t.rows) == revision && ActiveHash(t.rows) == snapshot.hash
  {
    if response.reply.Desired? {
      Activates(s, revision, snapshot, digest);
    }
    assert Next(s, Receive(response, runnable), digest) == Received(s, response.reply, runnable, digest);
  }

  lemma Activates(s: State, revision: nat, snapshot: Snapshot, digest: Content -> string)
    requires ContentHolds(s) && ValidServer(s.server, digest) && AgentHolds(s)
    requires revision >= 1 && revision in s.server.snapshots && s.server.snapshots[revision] == snapshot && snapshot.hash != ""
    ensures var t := Received(s, Desired(revision, snapshot), true, digest);
            && t.phase == Acknowledging(Ack(revision, snapshot.hash)) && t.server == s.server && t.current == s.current
            && ActiveRevision(t.rows) == revision && ActiveHash(t.rows) == snapshot.hash
  {
    ActivationEffect(s.rows, revision, snapshot.hash, snapshot.content);
  }
}
