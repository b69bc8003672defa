/**
A run in which a fully answered batch stays in the queue: the agent queues an observation it has already
quarantined, since only pending rows are looked at, and the clean-up of its second rejection rolls back.
*/
module Requeue {
  import opened Options
  import opened Numerals
  import opened TimeKeys
  import opened AgentStore
  import opened UploadText
  import opened Upload
  import opened Ingest
  import opened Configuration
  import opened Delivery
  import Protocol = RevisionProtocol

  // ---------------------------------------------------------------- one exchange about one row

  /** The row can travel alone, and the server can read it. */
  ghost predicate Sendable(o: Observation, batchId: string, env: Env) {
    && env.valid(o.payload) && Plain(batchId) && Single(env.compact(o.payload))
    && |Serialize(o.configRevision, batchId, [o], env.compact)| <= MAX_BATCH_BYTES
  }

  /** The queue holds one row, due now, and nothing is in flight. */
  ghost predicate OneRow(s: State, o: Observation, batchId: string, env: Env) {
    && s.queue.pending == map[o.key := o] && o.nextAttempt == 0 && s.flight.None? && s.queue.sync.backoffUntil.None?
    && (forall r :: r in s.sent ==> r.batchId != batchId) && Sendable(o, batchId, env)
  }

  function BatchOf(o: Observation, batchId: string, env: Env): Batch {
    Batch(o.configRevision, batchId, [o], Serialize(o.configRevision, batchId, [o], env.compact))
  }

  lemma OneRowIsReady(s: State, o: Observation, batchId: string, env: Env)
    requires OneRow(s, o, batchId, env)
    ensures IsReadyList(s.queue, 0, MAX_BATCH_OBSERVATIONS + 1, [o])
    ensures IsBatchFor([o], MAX_BATCH_OBSERVATIONS, MAX_BATCH_BYTES, batchId, env.valid, env.compact, Ok(BatchOf(o, batchId, env)))
  {
    ReadyWithinOneSecond(0, 0);
    assert ReadyKeys(s.queue.pending, 0) == {o.key};
    var rows, n := [o], 1;
    assert rows[0].key == o.key;
    assert rows[..n] == rows;
    StoppedBatch(rows, n, MAX_BATCH_OBSERVATIONS, MAX_BATCH_BYTES, batchId, env.valid, env.compact);
    assert Outcome(rows, n, MAX_BATCH_OBSERVATIONS, batchId, env.valid, env.compact) == Ok(BatchOf(o, batchId, env));
  }

  lemma Sends(s: State, o: Observation, batchId: string, env: Env)
    requires OneRow(s, o, batchId, env)
    ensures Next(s, Send(0, [o], batchId, Ok(BatchOf(o, batchId, env))), env) == Uploading(s, Ok(BatchOf(o, batchId, env)), 0)
  {
    SendsOne(s, o, batchId, env);
    NextIsSending(s, 0, [o], batchId, Ok(BatchOf(o, batchId, env)), env);
  }

  lemma NextIsSending(s: State, now: Clock, rows: seq<Observation>, batchId: string, built: Result<Batch, BatchError>, env: Env)
    ensures Next(s, Send(now, rows, batchId, built), env) == Sending(s, now, rows, batchId, built, env)
  {
  }

  lemma SendsOne(s: State, o: Observation, batchId: string, env: Env)
    requires OneRow(s, o, batchId, env)
    ensures Sending(s, 0, [o], batchId, Ok(BatchOf(o, batchId, env)), env) == Uploading(s, Ok(BatchOf(o, batchId, env)), 0)
  {
    OneRowIsReady(s, o, batchId, env);
  }

  /** The server knows the row's monitor and finds the observation too old. */
  ghost predicate TooOld(config: Protocol.State, o: Observation, serverNow: Instant, env: Env) {
    && Heard1(o, env).Some? && o.configRevision in ServerSnapshots(config)
    && Refusal(Context(env.agent, o.configRevision, ServerSnapshots(config)[o.configRevision], serverNow), Heard1(o, env).value)
       == Some("observation_too_old")
    && Heard1(o, env).value.key == o.key
  }

  /** What the row is to the server. */
  function Heard1(o: Observation, env: Env): Option<Wire> {
    env.decode(env.compact(o.payload))
  }

  function Verdict(o: Observation): RowAnswer {
    RowAnswer(o.key, Rejected, "observation_too_old", false)
  }

  lemma Refuses(s: State, o: Observation, batchId: string, serverNow: Instant, env: Env)
    requires TooOld(s.config, o, serverNow, env) && Sendable(o, batchId, env) && Request(BatchOf(o, batchId, env)) in s.sent
    ensures Next(s, Commit(Request(BatchOf(o, batchId, env)), serverNow), env)
              == s.(answers := s.answers + {AnswerTo(o, batchId, env)})
  {
    var request := Request(BatchOf(o, batchId, env));
    ReadAlone(o, batchId, env);
    MessageRefused(s, o, request, Heard(request).value, serverNow, env);
    NextIsIngest(s, request, serverNow, env);
  }

  function AnswerTo(o: Observation, batchId: string, env: Env): Answer {
    Answer(Request(BatchOf(o, batchId, env)), batchId, [Verdict(o)])
  }

  lemma ReadAlone(o: Observation, batchId: string, env: Env)
    requires Sendable(o, batchId, env)
    ensures Heard(Request(BatchOf(o, batchId, env)))
              == Some(Message(PROTOCOL_VERSION, RESULT_SCHEMA_VERSION, o.configRevision, batchId, [env.compact(o.payload)]))
  {
    assert Payloads([o], env.compact) == [env.compact(o.payload)];
    BodyReadsBack(o.configRevision, batchId, [o], env.compact);
  }

  lemma NextIsIngest(s: State, request: Sent, now: Instant, env: Env)
    requires request in s.sent
    ensures Next(s, Commit(request, now), env) == ServerIngest(s, request, now, env)
  {
  }

  lemma MessageRefused(s: State, o: Observation, request: Sent, m: Message, serverNow: Instant, env: Env)
    requires TooOld(s.config, o, serverNow, env) && m.revision == o.configRevision && m.observations == [env.compact(o.payload)]
    ensures MessageIngested(s, request, m, serverNow, env) == s.(answers := s.answers + {Answer(request, m.batchId, [Verdict(o)])})
  {
    var ws := Decoded(env, m.observations).value;
    assert ws == [Heard1(o, env).value];
    var c := Context(env.agent, o.configRevision, ServerSnapshots(s.config)[o.configRevision], serverNow);
    JustOne(s.tables, c, ws[0], env.db);
  }

  /** Clean-up of the one rejected row: it is quarantined, unless it already was; then it stays. */
  lemma Cleans(db: Database, o: Observation, batchId: string, env: Env)
    requires o.key in db.pending
    ensures var exchange := Answered(PROTOCOL_VERSION, batchId, [Verdict(o)], None);
            var after := Exchanged(db, BatchOf(o, batchId, env), exchange, 0, 0, env.random);
            && Conclusive(BatchOf(o, batchId, env), exchange, 0, env.random)
            && (if o.key in db.rejected then after.pending == db.pending && after.rejected == db.rejected
                else after.pending == db.pending - {o.key} && o.key in after.rejected && after.sync.backoffUntil.None?)
  {
    var batch := BatchOf(o, batchId, env);
    var exchange := Answered(PROTOCOL_VERSION, batchId, [Verdict(o)], None);
    var acks := Acknowledgements(batch, [Verdict(o)], ServerDelay(None), 0, env.random);
    var ack := Acknowledgement(o.key, Rejected, "observation_too_old", false, "", ZERO_TIME);
    assert acks == [ack];
    assert Trusted([o], acks);
    assert [o][..0] == [] && acks[..0] == [];
    assert AppliedAll(db, [o], acks, 0) == Applied(db, o, ack, 0);
  }

  /** Send, be refused, clean up. */
  lemma ExchangeEnds(s: State, o: Observation, id: string, serverNow: Instant, env: Env)
    requires OneRow(s, o, id, env) && TooOld(s.config, o, serverNow, env)
    ensures var request := Request(BatchOf(o, id, env));
            var answer := AnswerTo(o, id, env);
            var s2 := Next(s, Send(0, [o], id, Ok(BatchOf(o, id, env))), env);
            var s3 := Next(s2, Commit(request, serverNow), env);
            var u := Next(s3, Receive(answer, None, 0, 0), env);
            && answer in s3.answers && s3.flight == Some(BatchOf(o, id, env)) && s3.queue == s.queue
            && u.config == s.config && u.running == s.running && u.flight.None? && u.sent == s.sent + {request}
            && (if o.key in s.queue.rejected then u.queue.pending == s.queue.pending
                else u.queue.pending == map[] && o.key in u.queue.rejected && u.queue.sync.backoffUntil.None?)
  {
    Sends(s, o, id, env);
    var s2 := Uploading(s, Ok(BatchOf(o, id, env)), 0);
    Refuses(s2, o, id, serverNow, env);
    Receives(Next(s2, Commit(Request(BatchOf(o, id, env)), serverNow), env), o, id, env);
  }

  lemma Receives(s: State, o: Observation, id: string, env: Env)
    requires s.queue.pending == map[o.key := o] && s.flight == Some(BatchOf(o, id, env))
    requires AnswerTo(o, id, env) in s.answers
    ensures var u := Next(s, Receive(AnswerTo(o, id, env), None, 0, 0), env);
            && u == s.(queue := u.queue, flight := None)
            && (if o.key in s.queue.rejected then u.queue.pending == s.queue.pending
                else u.queue.pending == map[] && o.key in u.queue.rejected && u.queue.sync.backoffUntil.None?)
  {
    Cleans(s.queue, o, id, env);
    assert s.queue.pending - {o.key} == map[];
  }

  // ---------------------------------------------------------------- the run

  const ENTRY := Entry("m", "t", 1, "host", "tcp", 1, 60, 5, "{}")
  const ROW := Observation(Key(0, "o"), "m", 1, 1, "tcp", "{}", 0, 0, 0, None, None)
  const WIRE := Wire(Key(0, "o"), "m", 1, "tcp", NoResult, "")
  const MUCH_LATER: Instant := 2 * MAXIMUM_OBSERVATION_AGE

  function Example(): Env {
    Env("agent", (_: string) => Some(WIRE), Backend((_: Wire) => "h", (_: Wire) => true, (_: string) => true, (_: TypedResult) => true),
        (_: Content) => "d", (s: string) => s == ROW.payload, (s: string) => s, (_: nat) => 0.0, Limits(10, 100))
  }

  function Anything(e: Entry): bool {
    true
  }

  const JOB := Job(1, ENTRY)

  /** The agent's protocol state with revision 1 active. */
  ghost function Activated1(): Protocol.State {
    var snapshot := Snapshot("d", [ENTRY]);
    Protocol.State(ServerState(1, "d", 0, "", map[1 := snapshot]), [ENTRY], map[1 := StoredSnapshot("d", [ENTRY], true, true)],
                   Protocol.Acknowledging(Protocol.Ack(1, "d")), 1, {Protocol.Request(0, 0, "")},
                   {Protocol.Response(0, Protocol.Desired(1, snapshot))}, {}, map[1 := [ENTRY]])
  }

  lemma ServesAndActivates(s: Protocol.State)
    requires s == Protocol.INITIAL
    ensures var digest := Example().digest;
            var asked := Protocol.Next(Protocol.Next(s, Protocol.Change([ENTRY]), digest), Protocol.Poll, digest);
            var served := Protocol.Next(asked, Protocol.Serve(Protocol.Request(0, 0, ""), true, Anything), digest);
            Protocol.Next(served, Protocol.Receive(Protocol.Response(0, Protocol.Desired(1, Snapshot("d", [ENTRY]))), true), digest) == Activated1()
  {
    var digest := Example().digest;
    Protocol.ActiveIsZero();
    var asked := Protocol.Next(Protocol.Next(s, Protocol.Change([ENTRY]), digest), Protocol.Poll, digest);
    assert asked == Protocol.State(FRESH_STATE, [ENTRY], map[], Protocol.Waiting(0), 1, {Protocol.Request(0, 0, "")}, {}, {}, map[]);
    Issues();
    var served := Protocol.Next(asked, Protocol.Serve(Protocol.Request(0, 0, ""), true, Anything), digest);
    assert served == asked.(server := Activated1().server, responses := Activated1().responses);
    Activates();
  }

  lemma Issues()
    ensures Issued(FRESH_STATE, true, [ENTRY], Anything, Example().digest) == Ok((Activated1().server, 1))
  {
  }

  lemma Activates()
    ensures Activated(map[], 1, "d", [ENTRY]) == Ok(Activated1().rows) && ActiveRevision(Activated1().rows) == 1
  {
    var rows := WithActive(map[], 1, "d", [ENTRY]);
    assert rows == Activated1().rows;
    assert Pruned(rows) == rows;
    ActiveIs(rows, 1);
  }

  // ---------------------------------------------------------------- steps

  function Opening(): seq<Step> {
    [Configure(Protocol.Change([ENTRY])), Configure(Protocol.Poll),
     Configure(Protocol.Serve(Protocol.Request(0, 0, ""), true, Anything)),
     Configure(Protocol.Receive(Protocol.Response(0, Protocol.Desired(1, Snapshot("d", [ENTRY]))), true)),
     Load, Start(JOB)]
  }

  /** The steps taken one by one from a state. */
  ghost function Onward(s: State, steps: seq<Step>, env: Env): State
    decreases |steps|
  {
    if steps == [] then s else Onward(Next(s, steps[0], env), steps[1..], env)
  }

  lemma {:induction false} RunOnward(past: seq<Step>, steps: seq<Step>, env: Env)
    ensures Run(past + steps, env) == Onward(Run(past, env), steps, env)
    decreases |steps|
  {
    if steps == [] {
      assert past + steps == past;
    } else {
      var p := past + [steps[0]];
      assert p[..|p| - 1] == past;
      assert past + steps == p + steps[1..];
      RunOnward(p, steps[1..], env);
    }
  }

  ghost function Started(): State {
    Initial().(config := Activated1(), jobs := {JOB}, running := {JOB})
  }

  lemma Opens()
    ensures Run(Opening(), Example()) == Started()
  {
    var env := Example();
    var o := Opening();
    assert [] + o == o;
    RunOnward([], o, env);
    ServesAndActivates(Protocol.INITIAL);
    var s4 := Onward(Initial(), o[..4], env);
    FourSteps(Initial(), o[0], o[1], o[2], o[3], env);
    assert o[..4] == [o[0], o[1], o[2], o[3]];
    assert s4 == Initial().(config := Activated1());
    OnwardSplit(Initial(), o[..4], o[4..], env);
    assert o == o[..4] + o[4..];
    Activates();
    LoadsJob();
    assert o[4..] == [Load, Start(JOB)];
    TwoSteps(s4, Load, Start(JOB), env);
  }

  lemma TwoSteps(s: State, a: Step, b: Step, env: Env)
    ensures Onward(s, [a, b], env) == Next(Next(s, a, env), b, env)
  {
    assert [a, b][1..] == [b] && [b][1..] == [];
    assert Onward(Next(s, a, env), [b], env) == Onward(Next(Next(s, a, env), b, env), [], env);
  }

  lemma ThreeSteps(s: State, a: Step, b: Step, c: Step, env: Env)
    ensures Onward(s, [a, b, c], env) == Next(Next(Next(s, a, env), b, env), c, env)
  {
    assert [a, b, c][1..] == [b, c];
    TwoSteps(Next(s, a, env), b, c, env);
  }

  lemma FourSteps(s: State, a: Step, b: Step, c: Step, d: Step, env: Env)
    ensures Onward(s, [a, b, c, d], env) == Next(Next(Next(Next(s, a, env), b, env), c, env), d, env)
  {
    assert [a, b, c, d][1..] == [b, c, d];
    ThreeSteps(Next(s, a, env), b, c, d, env);
  }

  lemma {:induction false} OnwardSplit(s: State, xs: seq<Step>, ys: seq<Step>, env: Env)
    ensures Onward(s, xs + ys, env) == Onward(Onward(s, xs, env), ys, env)
    decreases |xs|
  {
    if xs == [] {
      assert xs + ys == ys;
    } else {
      assert (xs + ys)[1..] == xs[1..] + ys;
      OnwardSplit(Next(s, xs[0], env), xs[1..], ys, env);
    }
  }

  lemma LoadsJob()
    ensures ActiveJobs(Activated1()) == {JOB}
  {
    Activates();
    var content := Activated1().rows[1].content;
    assert content[0] == ENTRY;
    forall j ensures j in ActiveJobs(Activated1()) <==> j == JOB {
      assert j == JOB ==> j == Job(1, content[0]);
    }
  }

  // ---------------------------------------------------------------- record, send, be refused, clean up

  function Cycle(job: Job, o: Observation, id: string, serverNow: Instant, env: Env): seq<Step> {
    var request := Request(BatchOf(o, id, env));
    [Finish(job, o, 0), Send(0, [o], id, Ok(BatchOf(o, id, env))), Commit(request, serverNow), Receive(AnswerTo(o, id, env), None, 0, 0)]
  }

  function WithRow(s: State, o: Observation): State {
    s.(queue := s.queue.(pending := map[o.key := o]), enqueued := s.enqueued + {(o.key, o.payload)})
  }

  /** The job can record the row, alone in the queue, and the server finds it too old. */
  ghost predicate CycleFits(s: State, job: Job, o: Observation, id: string, serverNow: Instant, env: Env) {
    && job in s.running && RecordedFrom(env, job, o) && Enqueued(s.queue, o, env.limits, 0) == Ok(WithRow(s, o).queue)
    && OneRow(WithRow(s, o), o, id, env) && TooOld(s.config, o, serverNow, env)
  }

  lemma Finishes(s: State, job: Job, o: Observation, queue: Database, env: Env)
    requires job in s.running && RecordedFrom(env, job, o) && Enqueued(s.queue, o, env.limits, 0) == Ok(queue)
    ensures Next(s, Finish(job, o, 0), env) == s.(queue := queue, enqueued := s.enqueued + {(o.key, o.payload)})
  {
  }

  /** One cycle: the refused row is quarantined, unless it already was; then it stays pending. */
  lemma CycleEnds(s: State, job: Job, o: Observation, id: string, serverNow: Instant, env: Env)
    requires CycleFits(s, job, o, id, serverNow, env)
    ensures var c := Cycle(job, o, id, serverNow, env);
            var t := Onward(s, c[..3], env);
            var u := Onward(s, c, env);
            var answer := AnswerTo(o, id, env);
            && answer in t.answers && t.flight == Some(BatchOf(o, id, env)) && t.queue == WithRow(s, o).queue
            && u.config == s.config && u.running == s.running && u.flight.None? && u.sent == s.sent + {answer.request}
            && (if o.key in s.queue.rejected then u.queue.pending == t.queue.pending
                else u.queue.pending == map[] && o.key in u.queue.rejected && u.queue.sync.backoffUntil.None?)
  {
    var c := Cycle(job, o, id, serverNow, env);
    Finishes(s, job, o, WithRow(s, o).queue, env);
    ExchangeEnds(WithRow(s, o), o, id, serverNow, env);
    FourSteps(s, c[0], c[1], c[2], c[3], env);
    ThreeSteps(s, c[0], c[1], c[2], env);
    assert c == [c[0], c[1], c[2], c[3]] && c[..3] == [c[0], c[1], c[2]];
  }

  /** The job runs, the queue is empty and no upload has this identifier. */
  ghost predicate Idle(s: State, job: Job, id: string) {
    && job in s.running && s.queue.pending == map[] && s.flight.None? && s.queue.sync.backoffUntil.None?
    && forall r :: r in s.sent ==> r.batchId != id
  }

  /** The job may record the row, and it can be sent. */
  ghost predicate Suits(job: Job, o: Observation, id: string, env: Env) {
    RecordedFrom(env, job, o) && o.nextAttempt == 0 && Sendable(o, id, env)
  }

  /** An empty queue takes the row. */
  ghost predicate Taken(o: Observation, env: Env) {
    forall db: Database :: db.pending == map[] ==> Enqueued(db, o, env.limits, 0) == Ok(db.(pending := map[o.key := o]))
  }

  lemma IdleFits(s: State, job: Job, o: Observation, id: string, serverNow: Instant, env: Env)
    requires Suits(job, o, id, env) && Taken(o, env) && Idle(s, job, id) && TooOld(s.config, o, serverNow, env)
    ensures CycleFits(s, job, o, id, serverNow, env)
  {
  }

  /** The first cycle leaves the queue empty and the row quarantined. */
  lemma FirstQuarantines(past: seq<Step>, job: Job, o: Observation, id: string, other: string, serverNow: Instant, env: Env)
    requires CycleFits(Run(past, env), job, o, id, serverNow, env) && o.key !in Run(past, env).queue.rejected
    requires id != other && Idle(Run(past, env), job, other)
    ensures var t := Run(past + Cycle(job, o, id, serverNow, env), env);
            t.config == Run(past, env).config && Idle(t, job, other) && o.key in t.queue.rejected
  {
    RunOnward(past, Cycle(job, o, id, serverNow, env), env);
    CycleEnds(Run(past, env), job, o, id, serverNow, env);
  }

  /** The run ends with the receipt of a conclusive answer to the batch in flight, and the queue is as full as before. */
  ghost predicate AnswerStays(steps: seq<Step>, answer: Answer, env: Env) {
    && steps != [] && steps[|steps| - 1] == Receive(answer, None, 0, 0)
    && var s := Run(steps[..|steps| - 1], env);
       && answer in s.answers && s.flight.Some? && s.flight.value.batchId == answer.request.batchId
       && |answer.results| == |s.flight.value.observations| && (forall i :: 0 <= i < |answer.results| ==> !answer.results[i].retryable)
       && s.queue.pending != map[] && Run(steps, env).queue.pending == s.queue.pending
  }

  /** A cycle with a row already quarantined removes nothing. */
  lemma SecondStays(past: seq<Step>, job: Job, o: Observation, id: string, serverNow: Instant, env: Env)
    requires CycleFits(Run(past, env), job, o, id, serverNow, env) && o.key in Run(past, env).queue.rejected
    ensures AnswerStays(past + Cycle(job, o, id, serverNow, env), AnswerTo(o, id, env), env)
  {
    CycleEnds(Run(past, env), job, o, id, serverNow, env);
    CycleRuns(past, job, o, id, serverNow, env);
    assert o.key in Run(past + Cycle(job, o, id, serverNow, env)[..3], env).queue.pending;
  }

  lemma CycleRuns(past: seq<Step>, job: Job, o: Observation, id: string, serverNow: Instant, env: Env)
    ensures var cycle := Cycle(job, o, id, serverNow, env);
            && Run(past + cycle, env) == Onward(Run(past, env), cycle, env)
            && Run(past + cycle[..3], env) == Onward(Run(past, env), cycle[..3], env)
            && (past + cycle)[..|past + cycle| - 1] == past + cycle[..3]
  {
    var cycle := Cycle(job, o, id, serverNow, env);
    RunOnward(past, cycle[..3], env);
    RunOnward(past, cycle, env);
    assert (past + cycle)[..|past + cycle| - 1] == past + cycle[..3];
  }

  // ---------------------------------------------------------------- the example

  lemma Fitting(o: Observation, id: string, compact: string -> string)
    requires o.configRevision == 1 && |compact(o.payload)| <= 8 && |id| <= 8
    ensures |Serialize(o.configRevision, id, [o], compact)| <= MAX_BATCH_BYTES
  {
    var parts := Payloads([o], compact);
    assert parts == [compact(o.payload)];
    assert Joined(parts) == compact(o.payload);
    assert Decimal(1) == "1";
    ShortMembers(id, "[" + compact(o.payload) + "]");
  }

  lemma ShortMembers(id: string, observations: string)
    requires |id| <= 8 && |observations| <= 10
    ensures |Joined(Members(1, id, observations))| <= 200
  {
    var m := Members(1, id, observations);
    assert Decimal(1) == "1";
    assert m[..4][..3] == m[..3] && m[..3][..2] == m[..2] && m[..2][..1] == m[..1];
    assert |Joined(m[..2])| == |m[0]| + 1 + |m[1]|;
    assert |Joined(m[..3])| == |Joined(m[..2])| + 1 + |m[2]|;
    assert |Joined(m[..4])| == |Joined(m[..3])| + 1 + |m[3]|;
  }

  lemma Enqueues(db: Database)
    requires db.pending == map[]
    ensures Enqueued(db, ROW, Example().limits, 0) == Ok(db.(pending := map[ROW.key := ROW]))
  {
    assert Bytes(db.pending) == 0;
  }

  lemma SmallSuits(job: Job, o: Observation, id: string, env: Env)
    requires o.configRevision == 1 && o.nextAttempt == 0 && |env.compact(o.payload)| <= 8 && |id| <= 8
    requires RecordedFrom(env, job, o) && env.valid(o.payload) && Plain(id) && Single(env.compact(o.payload))
    ensures Suits(job, o, id, env)
  {
    Fitting(o, id, env.compact);
  }

  lemma RowSuits(id: string)
    requires |id| <= 8 && Plain(id)
    ensures Suits(JOB, ROW, id, Example())
  {
    ExampleRecords();
    ExampleSends();
    SmallSuits(JOB, ROW, id, Example());
  }

  lemma ExampleRecords()
    ensures RecordedFrom(Example(), JOB, ROW) && ROW.configRevision == 1 && ROW.nextAttempt == 0
  {
  }

  lemma ExampleSends()
    ensures Example().valid(ROW.payload) && Single(Example().compact(ROW.payload)) && |Example().compact(ROW.payload)| <= 8
  {
    PayloadIsSingle();
  }

  lemma RowTaken()
    ensures Taken(ROW, Example())
  {
    forall db: Database | db.pending == map[] ensures Enqueued(db, ROW, Example().limits, 0) == Ok(db.(pending := map[ROW.key := ROW])) {
      Enqueues(db);
    }
  }

  lemma OpenedIdle(id: string)
    ensures Run(Opening(), Example()).config == Activated1() && Idle(Run(Opening(), Example()), JOB, id)
    ensures Run(Opening(), Example()).queue.rejected == map[]
  {
    Opens();
  }

  lemma ExampleIsValid()
    ensures ValidEnv(Example())
  {
    PayloadIsSingle();
  }

  lemma PayloadIsSingle()
    ensures Single(ROW.payload)
  {
    var s := ROW.payload;
    assert s[1..] == "}" && s[1..][1..] == "";
    assert Across(s, Outside(0)) == Across("}", Outside(1));
  }

  lemma ServerRefuses()
    ensures TooOld(Activated1(), ROW, MUCH_LATER, Example())
  {
    var content := Activated1().server.snapshots[1].content;
    MonitorsLookup(content, ENTRY);
    assert ServerSnapshots(Activated1())[1] == Monitors(content);
  }

  /** A reachable state in which a job is about to record a row the server will find too old. */
  lemma Setting(a: string, b: string) returns (env: Env, past: seq<Step>, job: Job, o: Observation, serverNow: Instant)
    requires |a| <= 8 && Plain(a) && |b| <= 8 && Plain(b)
    ensures ValidEnv(env) && Taken(o, env) && TooOld(Run(past, env).config, o, serverNow, env) && Run(past, env).queue.rejected == map[]
    ensures Suits(job, o, a, env) && Idle(Run(past, env), job, a)
    ensures Suits(job, o, b, env) && Idle(Run(past, env), job, b)
  {
    env, past, job, o, serverNow := Example(), Opening(), JOB, ROW, MUCH_LATER;
    ExampleIsValid();
    RowTaken();
    ServerRefuses();
    RowSuits(a);
    RowSuits(b);
    OpenedIdle(a);
    OpenedIdle(b);
  }

  /** There is such a run: every result is a permanent rejection, and nothing leaves the queue. */
  lemma AnsweredBatchCanStay() returns (env: Env, steps: seq<Step>, answer: Answer)
    ensures ValidEnv(env) && AnswerStays(steps, answer, env)
  {
    var past, job, o, serverNow;
    env, past, job, o, serverNow := Setting("one", "two");
    IdleFits(Run(past, env), job, o, "one", serverNow, env);
    FirstQuarantines(past, job, o, "one", "two", serverNow, env);
    var once := past + Cycle(job, o, "one", serverNow, env);
    IdleFits(Run(once, env), job, o, "two", serverNow, env);
    SecondStays(once, job, o, "two", serverNow, env);
    steps, answer := once + Cycle(job, o, "two", serverNow, env), AnswerTo(o, "two", env);
  }
}
