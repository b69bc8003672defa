/**
Store-and-forward delivery, end to end, as a step system over one agent, the control plane and the
network between them.

The agent runs probes under its active configuration, queues their observations, uploads them in
batches and applies the answers.  Every upload ever sent may be ingested late, more than once or
never; an answer may be lost; other agents upload into the same tables; the configuration protocol
runs alongside; and the agent may crash between any two steps, keeping only its database.
*/
module Delivery {
  import opened Options
  import opened TimeKeys
  import opened AgentStore
  import opened UploadText
  import opened Upload
  import opened Ingest
  import opened Configuration
  import Protocol = RevisionProtocol

  /** What the model leaves open: decoding, the server's hash and columns, JSON helpers, randomness, limits. */
  datatype Env = Env(
    agent: string,
    decode: string -> Option<Wire>,
    db: Backend,
    digest: Content -> string,
    valid: string -> bool,
    compact: string -> string,
    random: nat -> real,
    limits: Limits)

  /** A probe job: one entry of the configuration it was loaded from. */
  datatype Job = Job(configRevision: int, entry: Entry)

  /** A request: the identifier the agent waits for, and the body it posted. */
  datatype Sent = Sent(batchId: string, body: string)

  /** The answer to a request, under the identifier the server read off it. */
  datatype Answer = Answer(request: Sent, batchId: string, results: seq<RowAnswer>)

  datatype State = State(
    config: Protocol.State,
    queue: Database,
    tables: Tables,
    jobs: set<Job>,               // loaded in the scheduler; volatile
    running: set<Job>,            // executions in progress; volatile
    flight: Option<Batch>,        // the batch being uploaded; volatile
    sent: set<Sent>,
    answers: set<Answer>,
    enqueued: set<(Key, string)>) // history: every identity and payload the queue ever accepted

  datatype Step =
    | Configure(step: Protocol.Step)
    | Load
    | Start(job: Job)
    | Finish(job: Job, observation: Observation, clock: Instant)
    | Send(now: Clock, rows: seq<Observation>, batchId: string, built: Result<Batch, BatchError>)
    | Commit(request: Sent, serverNow: Instant)
    | IngestOther(agent: string, snapshots: map<int, Configured>, revision: int, serverNow: Instant, ws: seq<Wire>)
    | Receive(answer: Answer, retryAfterSeconds: Option<int>, now: Clock, later: Clock)
    | Lose(retryAfter: int, later: Clock)
    | Crash

  ghost function Initial(): State {
    State(Protocol.INITIAL, Database(map[], map[], Synchronization(None, None, 0, None)), Tables(map[], map[]),
          {}, {}, None, {}, {}, {})
  }

  // ---------------------------------------------------------------- steps

  /** The dictionary the server builds from a snapshot's monitor list. */
  function Monitors(content: Content): Configured {
    if content == [] then map[]
    else
      var e := content[|content| - 1];
      Monitors(content[..|content| - 1])[e.monitor := MonitorEntry(e.probeType, e.revision)]
  }

  ghost function ServerSnapshots(s: Protocol.State): map<int, Configured> {
    map r: int | r in s.server.snapshots :: Monitors(s.server.snapshots[r].content)
  }

  /** A payload that decodes, decodes to the observation it was queued as, to the microsecond. */
  ghost predicate Genuine(env: Env, k: Key, payload: string) {
    env.decode(payload).Some? ==> env.decode(payload).value.key == WireKey(k)
  }

  /** The observation was recorded from an execution of `job`. */
  ghost predicate RecordedFrom(env: Env, job: Job, o: Observation) {
    && o.configRevision == job.configRevision
    && (env.decode(o.payload).Some? ==> Describes(env.decode(o.payload).value, job.entry)) && Genuine(env, o.key, o.payload)
  }

  predicate Describes(w: Wire, e: Entry) {
    w.monitor == e.monitor && w.probeType == e.probeType && w.monitorRevision == e.revision
  }

  ghost function ActiveJobs(s: Protocol.State): set<Job> {
    var r := ActiveRevision(s.rows);
    if r in s.rows then set i | 0 <= i < |s.rows[r].content| :: Job(r, s.rows[r].content[i]) else {}
  }

  function Request(batch: Batch): Sent {
    Sent(batch.batchId, batch.body)
  }

  /** What the server makes of a request: its body is read, within the size limit and the versions it supports. */
  function Heard(request: Sent): Option<Message> {
    match Read(request.body)
    case None => None
    case Some(m) =>
      if |request.body| <= MAX_BATCH_BYTES && m.protocolVersion == PROTOCOL_VERSION && m.schemaVersion == RESULT_SCHEMA_VERSION
      then Some(m) else None
  }

  ghost function Decoded(env: Env, payloads: seq<string>): Option<seq<Wire>> {
    if forall i :: 0 <= i < |payloads| ==> env.decode(payloads[i]).Some?
    then Some(seq(|payloads|, i requires 0 <= i < |payloads| && env.decode(payloads[i]).Some? => env.decode(payloads[i]).value))
    else None
  }

  ghost function Begun(s: State, job: Job): State {
    if job in s.jobs then s.(running := s.running + {job}) else s
  }

  ghost function Recorded(s: State, job: Job, o: Observation, clock: Instant, env: Env): State {
    if job in s.running && RecordedFrom(env, job, o) then Finished(s, o, clock, env) else s
  }

  ghost function Finished(s: State, o: Observation, clock: Instant, env: Env): State {
    match Enqueued(s.queue, o, env.limits, clock)
    case Err(_) => s
    case Ok(queue) => s.(queue := queue, enqueued := s.enqueued + {(o.key, o.payload)})
  }

  ghost function Uploading(s: State, built: Result<Batch, BatchError>, now: Clock): State {
    match built
    case Err(e) => if e.BadLimits? then s else s.(queue := SetAside(s.queue, e, now))
    case Ok(batch) => s.(flight := Some(batch), sent := s.sent + {Request(batch)})
  }

  ghost function ServerIngest(s: State, request: Sent, now: Instant, env: Env): State {
    if request !in s.sent then s else Processed(s, request, now, env)
  }

  ghost function Processed(s: State, request: Sent, now: Instant, env: Env): State {
    match Heard(request)
    case None => s
    case Some(m) => MessageIngested(s, request, m, now, env)
  }

  ghost function MessageIngested(s: State, request: Sent, m: Message, now: Instant, env: Env): State {
    match Decoded(env, m.observations)
    case None => s
    case Some(ws) =>
      match Ingested(s.tables, ServerSnapshots(s.config), env.agent, m.revision, now, ws, env.db)
      case None => s
      case Some((tables, results)) => s.(tables := tables, answers := s.answers + {Answer(request, m.batchId, results)})
  }

  ghost function Concluded(s: State, answer: Answer, retryAfterSeconds: Option<int>, now: Clock, later: Clock, env: Env): State
    requires s.flight.Some?
  {
    var exchange := Answered(PROTOCOL_VERSION, answer.batchId, answer.results, retryAfterSeconds);
    s.(queue := Exchanged(s.queue, s.flight.value, exchange, now, later, env.random), flight := None)
  }

  /** The answer arrives while the agent waits for it. */
  ghost function Received(s: State, answer: Answer, retryAfterSeconds: Option<int>, now: Clock, later: Clock, env: Env): State {
    if answer in s.answers && s.flight.Some? && s.flight.value.batchId == answer.request.batchId then
      Concluded(s, answer, retryAfterSeconds, now, later, env)
    else s
  }

  ghost function Lost(s: State, retryAfter: int, later: Clock, env: Env): State {
    if s.flight.Some? then s.(queue := Failure(s.queue, retryAfter, later, env.random(0)), flight := None) else s
  }

  ghost function Sending(s: State, now: Clock, rows: seq<Observation>, batchId: string, built: Result<Batch, BatchError>, env: Env): State {
    if && s.flight.None? && !BackingOff(s.queue.sync, now) && rows != []
       && Plain(batchId) && (forall r :: r in s.sent ==> r.batchId != batchId)
       && IsReadyList(s.queue, now, MAX_BATCH_OBSERVATIONS + 1, rows)
       && IsBatchFor(rows, MAX_BATCH_OBSERVATIONS, MAX_BATCH_BYTES, batchId, env.valid, env.compact, built)
    then Uploading(s, built, now) else s
  }

  ghost function OtherIngested(s: State, agent: string, snapshots: map<int, Configured>, revision: int, now: Instant, ws: seq<Wire>, env: Env): State {
    match Ingested(s.tables, snapshots, agent, revision, now, ws, env.db)
    case None => s
    case Some((tables, _)) => s.(tables := tables)
  }

  ghost function Crashed(s: State, env: Env): State {
    s.(config := Protocol.Next(s.config, Protocol.Crash, env.digest), jobs := {}, running := {}, flight := None)
  }

  ghost function Next(s: State, step: Step, env: Env): State {
    match step
    case Configure(c) => s.(config := Protocol.Next(s.config, c, env.digest))
    case Load => s.(jobs := ActiveJobs(s.config))
    case Start(job) => Begun(s, job)
    case Finish(job, o, clock) => Recorded(s, job, o, clock, env)
    case Send(now, rows, batchId, built) => Sending(s, now, rows, batchId, built, env)
    case Commit(request, now) => ServerIngest(s, request, now, env)
    case IngestOther(agent, snapshots, revision, now, ws) => OtherIngested(s, agent, snapshots, revision, now, ws, env)
    case Receive(answer, retryAfterSeconds, now, later) => Received(s, answer, retryAfterSeconds, now, later, env)
    case Lose(retryAfter, later) => Lost(s, retryAfter, later, env)
    case Crash => Crashed(s, env)
  }

  ghost function Run(steps: seq<Step>, env: Env): State {
    if steps == [] then Initial() else Next(Run(steps[..|steps| - 1], env), steps[|steps| - 1], env)
  }

  // ---------------------------------------------------------------- invariant

  type Activations = map<int, Content>

  /** The observation is still queued, quarantined on the agent, or stored by the server under its hash. */
  ghost predicate Accounted(queue: Database, tables: Tables, k: Key, payload: string, env: Env) {
    || (k in queue.pending && queue.pending[k].payload == payload)
    || (k in queue.rejected && queue.rejected[k].payload == payload)
    || (env.decode(payload).Some? && env.decode(payload).value.key == WireKey(k) && Stored(tables, env.decode(payload).value, env.db))
  }

  ghost predicate AllAccounted(queue: Database, tables: Tables, enqueued: set<(Key, string)>, env: Env) {
    forall k, p :: (k, p) in enqueued ==> Genuine(env, k, p) && Accounted(queue, tables, k, p, env)
  }

  /** A job, running or not, comes from a snapshot the agent once activated. */
  ghost predicate Assigned(activated: Activations, job: Job) {
    job.configRevision in activated && job.entry in activated[job.configRevision]
  }

  ghost predicate JobsHold(activated: Activations, jobs: set<Job>) {
    forall j :: j in jobs ==> Assigned(activated, j)
  }

  /** A payload that decodes, decodes to an entry of the activated snapshot `revision`. */
  ghost predicate Attributable(activated: Activations, revision: int, payload: string, env: Env) {
    env.decode(payload).Some? ==>
      revision in activated && exists e :: e in activated[revision] && Describes(env.decode(payload).value, e)
  }

  ghost predicate RowsHold(activated: Activations, pending: map<Key, Observation>, env: Env) {
    forall k :: k in pending ==> Attributable(activated, pending[k].configRevision, pending[k].payload, env)
  }

  /** The server can read the request, under its own identifier, and every observation in it is attributable. */
  ghost predicate SentSound(activated: Activations, r: Sent, env: Env) {
    Heard(r).Some? && MessageSound(activated, r.batchId, Heard(r).value, env)
  }

  ghost predicate MessageSound(activated: Activations, batchId: string, m: Message, env: Env) {
    m.batchId == batchId && forall i :: 0 <= i < |m.observations| ==> Attributable(activated, m.revision, m.observations[i], env)
  }

  ghost predicate SentHold(activated: Activations, sent: set<Sent>, env: Env) {
    forall r :: r in sent ==> SentSound(activated, r, env)
  }

  /** Reading the request for the batch gives its payloads, compacted, and compaction did not alter what they decode to. */
  ghost predicate Spoken(batch: Batch, env: Env) {
    && Heard(Request(batch)) == Some(Message(PROTOCOL_VERSION, RESULT_SCHEMA_VERSION, batch.revision, batch.batchId,
                                             Payloads(batch.observations, env.compact)))
    && forall o :: o in batch.observations ==> env.decode(env.compact(o.payload)) == env.decode(o.payload)
  }

  ghost predicate FlightSpoken(flight: Option<Batch>, env: Env) {
    flight.Some? ==> Spoken(flight.value, env)
  }

  /** While a batch is in flight its rows stay queued as they were read. */
  ghost predicate FlightHolds(flight: Option<Batch>, queue: Database, sent: set<Sent>) {
    flight.Some? ==>
      var batch := flight.value;
      && Queued(queue, batch.observations)
      && (forall o :: o in batch.observations ==> queue.pending[o.key].payload == o.payload)
      && forall r :: r in sent && r.batchId == batch.batchId ==> r == Request(batch)
  }

  predicate Spurious(code: string) {
    code == "configuration_revision_unavailable" || code == "monitor_not_in_configuration" || code == "monitor_revision_mismatch"
  }

  /** The server has stored the observation, from a row its columns accept. */
  ghost predicate Held(tables: Tables, w: Wire, env: Env) {
    Stored(tables, w, env.db) && env.db.row(w)
  }

  ghost predicate RowAnswered(tables: Tables, payload: string, a: RowAnswer, env: Env) {
    && !Spurious(a.code)
    && (a.disposition.Accepted? || a.disposition.Duplicate? ==> env.decode(payload).Some? && Held(tables, env.decode(payload).value, env))
  }

  ghost predicate AnswerSound(sent: set<Sent>, tables: Tables, a: Answer, env: Env) {
    a.request in sent && Heard(a.request).Some? && ResultsSound(tables, Heard(a.request).value, a, env)
  }

  ghost predicate ResultsSound(tables: Tables, m: Message, a: Answer, env: Env) {
    && a.batchId == m.batchId && |a.results| == |m.observations|
    && forall i :: 0 <= i < |a.results| ==> RowAnswered(tables, m.observations[i], a.results[i], env)
  }

  ghost predicate AnswersHold(answers: set<Answer>, sent: set<Sent>, tables: Tables, env: Env) {
    forall a :: a in answers ==> AnswerSound(sent, tables, a, env)
  }

  ghost predicate QueueHolds(queue: Database, env: Env) {
    KeyedByIdentity(queue) && WithinLimits(queue, env.limits)
  }

  ghost predicate Inv(s: State, env: Env) {
    && Protocol.Inv(s.config, env.digest) && QueueHolds(s.queue, env) && Consistent(s.tables, env.db)
    && AllAccounted(s.queue, s.tables, s.enqueued, env)
    && JobsHold(s.config.activated, s.jobs) && JobsHold(s.config.activated, s.running)
    && RowsHold(s.config.activated, s.queue.pending, env) && SentHold(s.config.activated, s.sent, env)
    && FlightHolds(s.flight, s.queue, s.sent) && FlightSpoken(s.flight, env) && AnswersHold(s.answers, s.sent, s.tables, env)
  }

  /** A valid payload is compacted to one JSON value that decodes to the same observation. */
  ghost predicate CompactionIsSound(env: Env) {
    CompactsValues(env.valid, env.compact) && forall p :: env.valid(p) ==> env.decode(env.compact(p)) == env.decode(p)
  }

  ghost predicate ValidEnv(env: Env) {
    IsDigest(env.digest) && env.limits.maxCount >= 1 && env.limits.maxBytes >= 1 && CompactionIsSound(env)
  }

  /** Any decoder, hashes, fractions, sound compaction and positive limits. */
  type Environment = env: Env | ValidEnv(env)
    ghost witness Env("", (_: string) => None,
                      Backend((_: Wire) => "0", (_: Wire) => true, (_: string) => true, (_: TypedResult) => true),
                      (_: Content) => "0", (_: string) => false, (s: string) => s, (_: nat) => 0.0, Limits(1, 1))

  // ---------------------------------------------------------------- configuration and probes

  ghost predicate ActivationsGrow(before: Activations, after: Activations) {
    forall r :: r in before ==> r in after && after[r] == before[r]
  }

  lemma JobsGrow(before: Activations, after: Activations, jobs: set<Job>)
    requires ActivationsGrow(before, after) && JobsHold(before, jobs)
    ensures JobsHold(after, jobs)
  {
    forall j | j in jobs ensures Assigned(after, j) {
      assert Assigned(before, j);
    }
  }

  lemma AttributionGrows(before: Activations, after: Activations, revision: int, payload: string, env: Env)
    requires ActivationsGrow(before, after) && Attributable(before, revision, payload, env)
    ensures Attributable(after, revision, payload, env)
  {
  }

  lemma RowsGrow(before: Activations, after: Activations, pending: map<Key, Observation>, env: Env)
    requires ActivationsGrow(before, after) && RowsHold(before, pending, env)
    ensures RowsHold(after, pending, env)
  {
    forall k | k in pending ensures Attributable(after, pending[k].configRevision, pending[k].payload, env) {
      AttributionGrows(before, after, pending[k].configRevision, pending[k].payload, env);
    }
  }

  lemma SentGrow(before: Activations, after: Activations, sent: set<Sent>, env: Env)
    requires ActivationsGrow(before, after) && SentHold(before, sent, env)
    ensures SentHold(after, sent, env)
  {
    forall r | r in sent ensures SentSound(after, r, env) {
      assert SentSound(before, r, env);
      MessageGrows(before, after, r.batchId, Heard(r).value, env);
    }
  }

  lemma MessageGrows(before: Activations, after: Activations, batchId: string, m: Message, env: Env)
    requires ActivationsGrow(before, after) && MessageSound(before, batchId, m, env)
    ensures MessageSound(after, batchId, m, env)
  {
    forall i | 0 <= i < |m.observations| ensures Attributable(after, m.revision, m.observations[i], env) {
      AttributionGrows(before, after, m.revision, m.observations[i], env);
    }
  }

  lemma ConfigureKeeps(s: State, c: Protocol.Step, env: Env)
    requires ValidEnv(env) && Inv(s, env)
    ensures Inv(s.(config := Protocol.Next(s.config, c, env.digest)), env)
  {
    var config := Protocol.Next(s.config, c, env.digest);
    ProtocolStep(s.config, c, env.digest);
    JobsGrow(s.config.activated, config.activated, s.jobs);
    JobsGrow(s.config.activated, config.activated, s.running);
    RowsGrow(s.config.activated, config.activated, s.queue.pending, env);
    SentGrow(s.config.activated, config.activated, s.sent, env);
  }

  lemma ProtocolStep(config: Protocol.State, c: Protocol.Step, digest: Content -> string)
    requires IsDigest(digest) && Protocol.Inv(config, digest)
    ensures Protocol.Inv(Protocol.Next(config, c, digest), digest)
    ensures ActivationsGrow(config.activated, Protocol.Next(config, c, digest).activated)
  {
    Protocol.StepKeeps(config, c, digest);
  }

  lemma ActiveJobsHold(config: Protocol.State, digest: Content -> string)
    requires Protocol.Inv(config, digest)
    ensures JobsHold(config.activated, ActiveJobs(config))
  {
    var r := ActiveRevision(config.rows);
    assert r in config.rows ==> r in config.activated && config.activated[r] == config.rows[r].content;
  }

  lemma LoadKeeps(s: State, env: Env)
    requires Inv(s, env)
    ensures Inv(s.(jobs := ActiveJobs(s.config)), env)
  {
    ActiveJobsHold(s.config, env.digest);
  }

  lemma StartKeeps(s: State, job: Job, env: Env)
    requires Inv(s, env)
    ensures Inv(Begun(s, job), env)
  {
    if job in s.jobs {
      assert Assigned(s.config.activated, job);
      assert JobsHold(s.config.activated, s.running + {job});
    }
  }

  lemma FinishKeeps(s: State, job: Job, o: Observation, clock: Instant, env: Env)
    requires Inv(s, env)
    ensures Inv(Recorded(s, job, o, clock, env), env)
  {
    if job in s.running && RecordedFrom(env, job, o) && Enqueued(s.queue, o, env.limits, clock).Ok? {
      var queue := Enqueued(s.queue, o, env.limits, clock).value;
      assert Assigned(s.config.activated, job);
      EnqueuedHolds(s.queue, o, clock, env);
      EnqueuedAccounted(s.queue, s.tables, s.enqueued, o, clock, env);
      EnqueuedRows(s.config.activated, s.queue, job, o, clock, env);
      EnqueuedFlight(s.flight, s.queue, s.sent, o, clock, env);
    }
  }

  lemma EnqueuedHolds(queue: Database, o: Observation, clock: Instant, env: Env)
    requires QueueHolds(queue, env) && Enqueued(queue, o, env.limits, clock).Ok?
    ensures QueueHolds(Enqueued(queue, o, env.limits, clock).value, env)
  {
    EnqueueKeepsPayload(queue, o, env.limits, clock);
  }

  lemma EnqueuedAccounted(queue: Database, tables: Tables, enqueued: set<(Key, string)>, o: Observation, clock: Instant, env: Env)
    requires AllAccounted(queue, tables, enqueued, env) && Genuine(env, o.key, o.payload) && Enqueued(queue, o, env.limits, clock).Ok?
    ensures AllAccounted(Enqueued(queue, o, env.limits, clock).value, tables, enqueued + {(o.key, o.payload)}, env)
  {
    var after := Enqueued(queue, o, env.limits, clock).value;
    EnqueueKeepsPayload(queue, o, env.limits, clock);
    forall k, p | (k, p) in enqueued ensures Genuine(env, k, p) && Accounted(after, tables, k, p, env) {
      assert Accounted(queue, tables, k, p, env);
    }
  }

  lemma EnqueuedRows(activated: Activations, queue: Database, job: Job, o: Observation, clock: Instant, env: Env)
    requires RowsHold(activated, queue.pending, env) && Assigned(activated, job) && RecordedFrom(env, job, o)
    requires Enqueued(queue, o, env.limits, clock).Ok?
    ensures RowsHold(activated, Enqueued(queue, o, env.limits, clock).value.pending, env)
  {
    var after := Enqueued(queue, o, env.limits, clock).value;
    assert Attributable(activated, o.configRevision, o.payload, env);
    assert after == queue || after.pending == queue.pending[o.key := WithDefaults(o, clock)];
  }

  lemma EnqueuedFlight(flight: Option<Batch>, queue: Database, sent: set<Sent>, o: Observation, clock: Instant, env: Env)
    requires FlightHolds(flight, queue, sent) && Enqueued(queue, o, env.limits, clock).Ok?
    ensures FlightHolds(flight, Enqueued(queue, o, env.limits, clock).value, sent)
  {
    EnqueueKeepsPayload(queue, o, env.limits, clock);
  }

  // ---------------------------------------------------------------- sending

  lemma BatchRows(queue: Database, now: Clock, rows: seq<Observation>, batchId: string, batch: Batch,
                  valid: string -> bool, compact: string -> string)
    requires KeyedByIdentity(queue) && IsReadyList(queue, now, MAX_BATCH_OBSERVATIONS + 1, rows) && rows != []
    requires IsBatchFor(rows, MAX_BATCH_OBSERVATIONS, MAX_BATCH_BYTES, batchId, valid, compact, Ok(batch))
    ensures Loaded(queue, batch) && batch.batchId == batchId
  {
    RowsQueued(queue, now, rows);
    BatchWithinLimits(rows, MAX_BATCH_OBSERVATIONS, MAX_BATCH_BYTES, batchId, valid, compact, Ok(batch));
    PrefixQueued(queue, rows, batch.observations);
    PrefixAsQueued(queue, rows, batch.observations);
  }

  lemma PrefixAsQueued(queue: Database, rows: seq<Observation>, prefix: seq<Observation>)
    requires prefix <= rows && forall i :: 0 <= i < |rows| ==> rows[i].key in queue.pending && queue.pending[rows[i].key] == rows[i]
    ensures forall o :: o in prefix ==> o.key in queue.pending && queue.pending[o.key] == o
  {
    forall o | o in prefix ensures o.key in queue.pending && queue.pending[o.key] == o {
      var i :| 0 <= i < |prefix| && prefix[i] == o;
      assert rows[i] == o;
    }
  }

  ghost predicate Loaded(queue: Database, batch: Batch) {
    && Queued(queue, batch.observations)
    && forall o :: o in batch.observations ==> queue.pending[o.key] == o && o.configRevision == batch.revision
  }

  lemma BatchSpoken(rows: seq<Observation>, batchId: string, batch: Batch, env: Env)
    requires CompactionIsSound(env) && rows != [] && Plain(batchId)
    requires IsBatchFor(rows, MAX_BATCH_OBSERVATIONS, MAX_BATCH_BYTES, batchId, env.valid, env.compact, Ok(batch))
    ensures Spoken(batch, env)
  {
    BatchWithinLimits(rows, MAX_BATCH_OBSERVATIONS, MAX_BATCH_BYTES, batchId, env.valid, env.compact, Ok(batch));
    BatchIsCarried(rows, MAX_BATCH_OBSERVATIONS, MAX_BATCH_BYTES, batchId, env.valid, env.compact, Ok(batch));
  }

  /** What the server reads off the batch is attributable as its rows are. */
  lemma SpokenSound(activated: Activations, queue: Database, batch: Batch, env: Env)
    requires RowsHold(activated, queue.pending, env) && Loaded(queue, batch) && Spoken(batch, env)
    ensures SentSound(activated, Request(batch), env)
  {
    var m := Heard(Request(batch)).value;
    forall i | 0 <= i < |m.observations| ensures Attributable(activated, m.revision, m.observations[i], env) {
      var o := batch.observations[i];
      assert o in batch.observations;
      assert m.observations[i] == env.compact(o.payload);
      assert Attributable(activated, queue.pending[o.key].configRevision, queue.pending[o.key].payload, env);
    }
  }

  lemma SentOneMore(activated: Activations, queue: Database, sent: set<Sent>, batch: Batch, env: Env)
    requires RowsHold(activated, queue.pending, env) && SentHold(activated, sent, env) && Loaded(queue, batch) && Spoken(batch, env)
    ensures SentHold(activated, sent + {Request(batch)}, env)
  {
    SpokenSound(activated, queue, batch, env);
  }

  lemma FlightLoaded(queue: Database, sent: set<Sent>, batch: Batch)
    requires Loaded(queue, batch) && forall r :: r in sent ==> r.batchId != batch.batchId
    ensures FlightHolds(Some(batch), queue, sent + {Request(batch)})
  {
  }

  lemma AnswersStay(answers: set<Answer>, sent: set<Sent>, more: set<Sent>, tables: Tables, env: Env)
    requires AnswersHold(answers, sent, tables, env) && sent <= more
    ensures AnswersHold(answers, more, tables, env)
  {
    forall a | a in answers ensures AnswerSound(more, tables, a, env) {
      assert AnswerSound(sent, tables, a, env);
    }
  }

  lemma SendKeeps(s: State, batch: Batch, now: Clock, env: Env)
    requires Inv(s, env) && Loaded(s.queue, batch) && Spoken(batch, env) && forall r :: r in s.sent ==> r.batchId != batch.batchId
    ensures Inv(Uploading(s, Ok(batch), now), env)
  {
    SentOneMore(s.config.activated, s.queue, s.sent, batch, env);
    FlightLoaded(s.queue, s.sent, batch);
    AnswersStay(s.answers, s.sent, s.sent + {Request(batch)}, s.tables, env);
  }

  /** Rows may leave the queue; those that stay keep what they hold. */
  ghost predicate Thinned(before: Database, after: Database) {
    forall k :: k in after.pending ==> k in before.pending && after.pending[k].payload == before.pending[k].payload
                                       && after.pending[k].configRevision == before.pending[k].configRevision
  }

  lemma RowsThinned(activated: Activations, before: Database, after: Database, env: Env)
    requires RowsHold(activated, before.pending, env) && Thinned(before, after)
    ensures RowsHold(activated, after.pending, env)
  {
    forall k | k in after.pending ensures Attributable(activated, after.pending[k].configRevision, after.pending[k].payload, env) {
      assert Attributable(activated, before.pending[k].configRevision, before.pending[k].payload, env);
    }
  }

  /** A thinned queue that still accounts for every payload may replace the queue once the flight is over. */
  lemma QueueChangeKeeps(s: State, queue: Database, env: Env)
    requires Inv(s, env) && QueueHolds(queue, env) && Thinned(s.queue, queue) && AllAccounted(queue, s.tables, s.enqueued, env)
    ensures Inv(s.(queue := queue, flight := None), env)
  {
    RowsThinned(s.config.activated, s.queue, queue, env);
  }

  lemma SetAsideFits(db: Database, tables: Tables, enqueued: set<(Key, string)>, error: BatchError, now: Clock, env: Env)
    requires QueueHolds(db, env) && AllAccounted(db, tables, enqueued, env) && !error.BadLimits?
    ensures var queue := SetAside(db, error, now); QueueHolds(queue, env) && Thinned(db, queue) && AllAccounted(queue, tables, enqueued, env)
  {
    var queue := SetAside(db, error, now);
    if queue != db {
      BytesRemove(db.pending, error.observation.key);
      forall k, p | (k, p) in enqueued ensures Accounted(queue, tables, k, p, env) {
        assert Accounted(db, tables, k, p, env);
      }
    }
  }

  lemma SetAsideKeeps(s: State, error: BatchError, now: Clock, env: Env)
    requires Inv(s, env) && !error.BadLimits? && s.flight.None?
    ensures Inv(s.(queue := SetAside(s.queue, error, now)), env)
  {
    var queue := SetAside(s.queue, error, now);
    SetAsideFits(s.queue, s.tables, s.enqueued, error, now, env);
    QueueChangeKeeps(s, queue, env);
    assert s.(queue := queue) == s.(queue := queue, flight := None);
  }

  // ---------------------------------------------------------------- ingesting

  lemma {:induction false} MonitorsLookup(content: Content, e: Entry)
    requires DistinctMonitors(content) && e in content
    ensures e.monitor in Monitors(content) && Monitors(content)[e.monitor] == MonitorEntry(e.probeType, e.revision)
  {
    var n := |content| - 1;
    if e != content[n] {
      assert e in content[..n];
      var i :| 0 <= i < n && content[i] == e;
      assert content[i].monitor != content[n].monitor;
      MonitorsLookup(content[..n], e);
    }
  }

  /** Under the snapshot its job came from, an observation is refused for its age or its clock only. */
  lemma NotRefusedByConfiguration(config: Protocol.State, revision: int, payload: string, now: Instant, env: Env)
    requires Protocol.Inv(config, env.digest) && env.decode(payload).Some? && Attributable(config.activated, revision, payload, env)
    ensures revision in ServerSnapshots(config)
    ensures var c := Context(env.agent, revision, ServerSnapshots(config)[revision], now);
            InConfiguration(c, env.decode(payload).value) && AtRevision(c, env.decode(payload).value)
  {
    var e :| e in config.activated[revision] && Describes(env.decode(payload).value, e);
    ActivatedAreServed(config, revision, env.digest);
    MonitorsLookup(config.activated[revision], e);
  }

  lemma ActivatedAreServed(config: Protocol.State, revision: int, digest: Content -> string)
    requires Protocol.Inv(config, digest) && revision in config.activated
    ensures revision in ServerSnapshots(config) && ServerSnapshots(config)[revision] == Monitors(config.activated[revision])
    ensures DistinctMonitors(config.activated[revision])
  {
  }

  lemma NotSpurious(c: Context, w: Wire, code: string)
    requires InConfiguration(c, w) && AtRevision(c, w) && Due(c, w, code)
    ensures !Spurious(code)
  {
  }

  lemma AccountsGrow(queue: Database, before: Tables, after: Tables, enqueued: set<(Key, string)>, env: Env)
    requires AllAccounted(queue, before, enqueued, env) && Extends(before, after)
    ensures AllAccounted(queue, after, enqueued, env)
  {
    forall k, p | (k, p) in enqueued ensures Genuine(env, k, p) && Accounted(queue, after, k, p, env) {
      assert Accounted(queue, before, k, p, env);
    }
  }

  lemma AnswersGrow(answers: set<Answer>, sent: set<Sent>, before: Tables, after: Tables, env: Env)
    requires AnswersHold(answers, sent, before, env) && Extends(before, after)
    ensures AnswersHold(answers, sent, after, env)
  {
    forall a | a in answers ensures AnswerSound(sent, after, a, env) {
      assert AnswerSound(sent, before, a, env);
      ResultsGrow(before, after, Heard(a.request).value, a, env);
    }
  }

  lemma ResultsGrow(before: Tables, after: Tables, m: Message, a: Answer, env: Env)
    requires ResultsSound(before, m, a, env) && Extends(before, after)
    ensures ResultsSound(after, m, a, env)
  {
    forall i | 0 <= i < |a.results| ensures RowAnswered(after, m.observations[i], a.results[i], env) {
      assert RowAnswered(before, m.observations[i], a.results[i], env);
    }
  }

  lemma TablesGrow(s: State, tables: Tables, env: Env)
    requires Inv(s, env) && Consistent(tables, env.db) && Extends(s.tables, tables)
    ensures Inv(s.(tables := tables), env)
  {
    AccountsGrow(s.queue, s.tables, tables, s.enqueued, env);
    AnswersGrow(s.answers, s.sent, s.tables, tables, env);
  }

  lemma AnswerRowSound(config: Protocol.State, revision: int, payload: string, now: Instant, before: Tables, tables: Tables, a: RowAnswer, env: Env)
    requires Protocol.Inv(config, env.digest) && env.decode(payload).Some? && Attributable(config.activated, revision, payload, env)
    requires revision in ServerSnapshots(config) ==>
               AnswerHolds(before, tables, Context(env.agent, revision, ServerSnapshots(config)[revision], now), env.decode(payload).value, a, env.db)
    ensures RowAnswered(tables, payload, a, env)
  {
    NotRefusedByConfiguration(config, revision, payload, now, env);
    RowAnswerHolds(before, tables, Context(env.agent, revision, ServerSnapshots(config)[revision], now), payload, a, env);
  }

  lemma RowAnswerHolds(before: Tables, tables: Tables, c: Context, payload: string, a: RowAnswer, env: Env)
    requires env.decode(payload).Some? && AnswerHolds(before, tables, c, env.decode(payload).value, a, env.db)
    requires InConfiguration(c, env.decode(payload).value) && AtRevision(c, env.decode(payload).value)
    ensures RowAnswered(tables, payload, a, env)
  {
    if a.disposition.Rejected? && !Admissible(c, env.decode(payload).value) {
      NotSpurious(c, env.decode(payload).value, a.code);
    }
  }

  lemma NewAnswerSound(config: Protocol.State, m: Message, request: Sent, now: Instant, before: Tables, tables: Tables, results: seq<RowAnswer>, env: Env)
    requires Protocol.Inv(config, env.digest) && MessageSound(config.activated, request.batchId, m, env) && Consistent(before, env.db)
    requires Decoded(env, m.observations).Some?
    requires Ingested(before, ServerSnapshots(config), env.agent, m.revision, now, Decoded(env, m.observations).value, env.db) == Some((tables, results))
    ensures ResultsSound(tables, m, Answer(request, m.batchId, results), env)
  {
    var ws := Decoded(env, m.observations).value;
    IngestAnswers(before, ServerSnapshots(config), env.agent, m.revision, now, ws, env.db);
    forall i | 0 <= i < |results| ensures RowAnswered(tables, m.observations[i], results[i], env) {
      assert Attributable(config.activated, m.revision, m.observations[i], env);
      assert ws[i] == env.decode(m.observations[i]).value;
      AnswerRowSound(config, m.revision, m.observations[i], now, before, tables, results[i], env);
    }
  }

  lemma IngestKeeps(s: State, request: Sent, now: Instant, env: Env)
    requires Inv(s, env)
    ensures Inv(ServerIngest(s, request, now, env), env)
  {
    if request in s.sent {
      assert SentSound(s.config.activated, request, env);
      MessageKeeps(s, request, Heard(request).value, now, env);
    }
  }

  lemma MessageKeeps(s: State, request: Sent, m: Message, now: Instant, env: Env)
    requires Inv(s, env) && request in s.sent && Heard(request) == Some(m) && MessageSound(s.config.activated, request.batchId, m, env)
    ensures Inv(MessageIngested(s, request, m, now, env), env)
  {
    if Decoded(env, m.observations).Some? {
      var ws := Decoded(env, m.observations).value;
      var outcome := Ingested(s.tables, ServerSnapshots(s.config), env.agent, m.revision, now, ws, env.db);
      if outcome.Some? {
        var (tables, results) := outcome.value;
        IngestAnswers(s.tables, ServerSnapshots(s.config), env.agent, m.revision, now, ws, env.db);
        NewAnswerSound(s.config, m, request, now, s.tables, tables, results, env);
        AnswerAdded(s, tables, Answer(request, m.batchId, results), env);
      }
    }
  }

  lemma AnswerAdded(s: State, tables: Tables, a: Answer, env: Env)
    requires Inv(s, env) && Consistent(tables, env.db) && Extends(s.tables, tables) && AnswerSound(s.sent, tables, a, env)
    ensures Inv(s.(tables := tables, answers := s.answers + {a}), env)
  {
    TablesGrow(s, tables, env);
    assert AnswersHold(s.answers + {a}, s.sent, tables, env);
  }

  // ---------------------------------------------------------------- applying an answer

  lemma ReceiveKeeps(s: State, answer: Answer, retryAfterSeconds: Option<int>, now: Clock, later: Clock, env: Env)
    requires Inv(s, env)
    ensures Inv(Received(s, answer, retryAfterSeconds, now, later, env), env)
  {
    if answer in s.answers && s.flight.Some? && s.flight.value.batchId == answer.request.batchId {
      assert AnswerSound(s.sent, s.tables, answer, env);
      EchoedIdentifier(s.flight.value, s.queue, s.sent, s.tables, answer, env);
      ConclusionFits(s.queue, s.tables, s.enqueued, s.flight.value, s.sent, answer, retryAfterSeconds, now, later, env);
      QueueChangeKeeps(s, Concluded(s, answer, retryAfterSeconds, now, later, env).queue, env);
    }
  }

  /** The server answers under the identifier of the batch. */
  lemma EchoedIdentifier(batch: Batch, queue: Database, sent: set<Sent>, tables: Tables, answer: Answer, env: Env)
    requires FlightHolds(Some(batch), queue, sent) && Spoken(batch, env) && AnswerSound(sent, tables, answer, env)
    requires batch.batchId == answer.request.batchId
    ensures answer.request == Request(batch) && answer.batchId == batch.batchId
  {
  }

  /** Rows answered as stored are stored. */
  ghost predicate TerminalStored(batch: Batch, acks: seq<Acknowledgement>, tables: Tables, env: Env) {
    && |acks| == |batch.observations|
    && forall i :: 0 <= i < |acks| && acks[i].Terminal() ==>
         var p := batch.observations[i].payload;
         env.decode(p).Some? && Stored(tables, env.decode(p).value, env.db)
  }

  lemma TerminalIsStored(batch: Batch, queue: Database, sent: set<Sent>, tables: Tables, answer: Answer, acks: seq<Acknowledgement>, env: Env)
    requires FlightHolds(Some(batch), queue, sent) && Spoken(batch, env)
    requires AnswerSound(sent, tables, answer, env) && batch.batchId == answer.request.batchId
    requires |acks| == |answer.results| && forall i :: 0 <= i < |acks| ==> acks[i].disposition == answer.results[i].disposition
    ensures TerminalStored(batch, acks, tables, env)
  {
    assert answer.request == Request(batch);
    forall i | 0 <= i < |acks| && acks[i].Terminal()
      ensures var p := batch.observations[i].payload; env.decode(p).Some? && Stored(tables, env.decode(p).value, env.db)
    {
      assert batch.observations[i] in batch.observations;
      assert RowAnswered(tables, Heard(answer.request).value.observations[i], answer.results[i], env);
    }
  }

  /** The queue after the answer still accounts for everything. */
  lemma ConclusionFits(queue: Database, tables: Tables, enqueued: set<(Key, string)>, batch: Batch, sent: set<Sent>, answer: Answer,
                       retryAfterSeconds: Option<int>, now: Clock, later: Clock, env: Env)
    requires QueueHolds(queue, env) && AllAccounted(queue, tables, enqueued, env) && FlightHolds(Some(batch), queue, sent)
    requires Spoken(batch, env) && AnswerSound(sent, tables, answer, env) && batch.batchId == answer.request.batchId == answer.batchId
    ensures var after := Exchanged(queue, batch, Answered(PROTOCOL_VERSION, answer.batchId, answer.results, retryAfterSeconds), now, later, env.random);
            QueueHolds(after, env) && Thinned(queue, after) && AllAccounted(after, tables, enqueued, env)
  {
    var delay := ServerDelay(retryAfterSeconds);
    var acks := Acknowledgements(batch, answer.results, delay, now, env.random);
    if Acknowledged(queue, batch.observations, acks, now).Ok? {
      TerminalIsStored(batch, queue, sent, tables, answer, acks, env);
      CleanupFits(queue, tables, enqueued, batch, sent, acks, now, env);
    } else {
      FailureFits(queue, tables, enqueued, delay, later, env);
    }
  }

  lemma CleanupFits(queue: Database, tables: Tables, enqueued: set<(Key, string)>, batch: Batch, sent: set<Sent>,
                    acks: seq<Acknowledgement>, now: Instant, env: Env)
    requires QueueHolds(queue, env) && AllAccounted(queue, tables, enqueued, env) && FlightHolds(Some(batch), queue, sent)
    requires TerminalStored(batch, acks, tables, env) && Acknowledged(queue, batch.observations, acks, now).Ok?
    ensures var after := Acknowledged(queue, batch.observations, acks, now).value;
            QueueHolds(after, env) && Thinned(queue, after) && AllAccounted(after, tables, enqueued, env)
  {
    var after := Acknowledged(queue, batch.observations, acks, now).value;
    AcknowledgementEffect(queue, batch.observations, acks, now);
    AcknowledgementKeepsLimits(queue, batch.observations, acks, now, env.limits);
    SettledRows(queue, after, batch, acks, now);
    forall k, p | (k, p) in enqueued ensures Genuine(env, k, p) && Accounted(after, tables, k, p, env) {
      SettledPayload(queue, after, tables, batch, acks, now, k, p, env);
    }
  }

  ghost predicate Settled(before: Database, after: Database, batch: Batch, acks: seq<Acknowledgement>, now: Instant) {
    && |acks| == |batch.observations| && OthersUntouched(before, after, batch.observations)
    && forall i :: 0 <= i < |acks| ==> RowSettled(before, after, batch.observations[i], acks[i], now)
  }

  lemma SettledRows(before: Database, after: Database, batch: Batch, acks: seq<Acknowledgement>, now: Instant)
    requires KeyedByIdentity(before) && Settled(before, after, batch, acks, now)
    ensures KeyedByIdentity(after) && Thinned(before, after)
  {
    forall k | k in after.pending
      ensures k in before.pending && after.pending[k].payload == before.pending[k].payload
              && after.pending[k].configRevision == before.pending[k].configRevision && after.pending[k].key == k
    {
      if k in Keys(batch.observations) {
        var i :| 0 <= i < |batch.observations| && batch.observations[i].key == k;
        assert RowSettled(before, after, batch.observations[i], acks[i], now);
      } else {
        assert SameAt(before, after, k);
      }
    }
  }

  lemma SettledPayload(before: Database, after: Database, tables: Tables, batch: Batch, acks: seq<Acknowledgement>, now: Instant, k: Key, p: string, env: Env)
    requires Settled(before, after, batch, acks, now) && TerminalStored(batch, acks, tables, env) && Genuine(env, k, p) && Accounted(before, tables, k, p, env)
    requires forall o :: o in batch.observations ==> o.key in before.pending && before.pending[o.key].payload == o.payload
    ensures Accounted(after, tables, k, p, env)
  {
    if k in Keys(batch.observations) {
      var i :| 0 <= i < |batch.observations| && batch.observations[i].key == k;
      assert batch.observations[i] in batch.observations;
      assert RowSettled(before, after, batch.observations[i], acks[i], now);
    } else {
      assert SameAt(before, after, k);
    }
  }

  lemma FailureFits(queue: Database, tables: Tables, enqueued: set<(Key, string)>, delay: int, later: Clock, env: Env)
    requires QueueHolds(queue, env) && AllAccounted(queue, tables, enqueued, env)
    ensures var after := Failure(queue, delay, later, env.random(0));
            QueueHolds(after, env) && Thinned(queue, after) && AllAccounted(after, tables, enqueued, env)
  {
    forall k, p | (k, p) in enqueued ensures Accounted(Failure(queue, delay, later, env.random(0)), tables, k, p, env) {
      assert Accounted(queue, tables, k, p, env);
    }
  }

  lemma FailureKeeps(s: State, delay: int, later: Clock, env: Env)
    requires Inv(s, env)
    ensures Inv(s.(queue := Failure(s.queue, delay, later, env.random(0)), flight := None), env)
  {
    FailureFits(s.queue, s.tables, s.enqueued, delay, later, env);
    QueueChangeKeeps(s, Failure(s.queue, delay, later, env.random(0)), env);
  }

  lemma LoseKeeps(s: State, retryAfter: int, later: Clock, env: Env)
    requires Inv(s, env)
    ensures Inv(Lost(s, retryAfter, later, env), env)
  {
    FailureKeeps(s, retryAfter, later, env);
  }

  // ---------------------------------------------------------------- every step, every run

  lemma CrashKeeps(s: State, env: Env)
    requires ValidEnv(env) && Inv(s, env)
    ensures Inv(Crashed(s, env), env)
  {
    ConfigureKeeps(s, Protocol.Crash, env);
  }

  lemma IngestOtherKeeps(s: State, agent: string, snapshots: map<int, Configured>, revision: int, now: Instant, ws: seq<Wire>, env: Env)
    requires Inv(s, env)
    ensures Inv(OtherIngested(s, agent, snapshots, revision, now, ws, env), env)
  {
    if Ingested(s.tables, snapshots, agent, revision, now, ws, env.db).Some? {
      IngestAnswers(s.tables, snapshots, agent, revision, now, ws, env.db);
      TablesGrow(s, Ingested(s.tables, snapshots, agent, revision, now, ws, env.db).value.0, env);
    }
  }

  lemma SendStepKeeps(s: State, now: Clock, rows: seq<Observation>, batchId: string, built: Result<Batch, BatchError>, env: Env)
    requires ValidEnv(env) && Inv(s, env)
    ensures Inv(Sending(s, now, rows, batchId, built, env), env)
  {
    if Sending(s, now, rows, batchId, built, env) != s {
      match built
      case Ok(batch) =>
        BatchRows(s.queue, now, rows, batchId, batch, env.valid, env.compact);
        BatchSpoken(rows, batchId, batch, env);
        SendKeeps(s, batch, now, env);
      case Err(e) =>
        SetAsideKeeps(s, e, now, env);
    }
  }

  /** Steps that bring the agent its configuration, or take its memory away. */
  lemma SetupStepKeeps(s: State, step: Step, env: Env)
    requires ValidEnv(env) && Inv(s, env) && (step.Configure? || step.Load? || step.Crash?)
    ensures Inv(Next(s, step, env), env)
  {
    match step
    case Configure(c) => ConfigureKeeps(s, c, env);
    case Load => LoadKeeps(s, env);
    case Crash => CrashKeeps(s, env);
  }

  /** Steps of a probe. */
  lemma ProbeStepKeeps(s: State, step: Step, env: Env)
    requires ValidEnv(env) && Inv(s, env) && (step.Start? || step.Finish?)
    ensures Inv(Next(s, step, env), env)
  {
    match step
    case Start(job) => StartKeeps(s, job, env);
    case Finish(job, o, clock) => FinishKeeps(s, job, o, clock, env);
  }

  /** Steps that bring a request to the server. */
  lemma RequestStepKeeps(s: State, step: Step, env: Env)
    requires ValidEnv(env) && Inv(s, env) && (step.Send? || step.Commit? || step.IngestOther?)
    ensures Inv(Next(s, step, env), env)
  {
    match step
    case Send(now, rows, batchId, built) => SendStepKeeps(s, now, rows, batchId, built, env);
    case Commit(request, now) => IngestKeeps(s, request, now, env);
    case IngestOther(agent, snapshots, revision, now, ws) => IngestOtherKeeps(s, agent, snapshots, revision, now, ws, env);
  }

  /** Steps that end an upload. */
  lemma EndStepKeeps(s: State, step: Step, env: Env)
    requires ValidEnv(env) && Inv(s, env) && (step.Receive? || step.Lose?)
    ensures Inv(Next(s, step, env), env)
  {
    match step
    case Receive(answer, retryAfterSeconds, now, later) => ReceiveKeeps(s, answer, retryAfterSeconds, now, later, env);
    case Lose(retryAfter, later) => LoseKeeps(s, retryAfter, later, env);
  }

  lemma StepKeeps(s: State, step: Step, env: Env)
    requires ValidEnv(env) && Inv(s, env)
    ensures Inv(Next(s, step, env), env)
  {
    if step.Send? || step.Commit? || step.IngestOther? {
      RequestStepKeeps(s, step, env);
    } else if step.Receive? || step.Lose? {
      EndStepKeeps(s, step, env);
    } else if step.Start? || step.Finish? {
      ProbeStepKeeps(s, step, env);
    } else {
      SetupStepKeeps(s, step, env);
    }
  }

  lemma InitialHolds(env: Env)
    requires ValidEnv(env)
    ensures Inv(Initial(), env)
  {
    Protocol.InitialHolds(env.digest);
  }

  lemma {:induction false} RunKeeps(steps: seq<Step>, env: Env)
    requires ValidEnv(env)
    ensures Inv(Run(steps, env), env)
  {
    if steps == [] {
      InitialHolds(env);
    } else {
      RunKeeps(steps[..|steps| - 1], env);
      StepKeeps(Run(steps[..|steps| - 1], env), steps[|steps| - 1], env);
    }
  }

  // ---------------------------------------------------------------- theorems

  /**
  No observation is lost.  In every reachable state each observation the queue ever accepted is
  pending, quarantined on the agent, or stored on the server under exactly its content hash; stored
  rows carry the hash of what they hold, one row per identity; and the queue is within its limits.
  */
  lemma NothingIsLost(steps: seq<Step>, env: Environment)
    ensures var s := Run(steps, env);
            && (forall k, p :: (k, p) in s.enqueued ==> Accounted(s.queue, s.tables, k, p, env))
            && Consistent(s.tables, env.db) && WithinLimits(s.queue, env.limits)
  {
    RunKeeps(steps, env);
  }

  /**
  An observation recorded under an activated snapshot is never answered that its configuration is
  unavailable, lacks its monitor or has another monitor revision, however many revisions have passed.
  */
  lemma NoSpuriousRejection(steps: seq<Step>, env: Environment)
    ensures forall a, i :: a in Run(steps, env).answers && 0 <= i < |a.results| ==> !Spurious(a.results[i].code)
  {
    RunKeeps(steps, env);
    var s := Run(steps, env);
    forall a, i | a in s.answers && 0 <= i < |a.results| ensures !Spurious(a.results[i].code) {
      assert AnswerSound(s.sent, s.tables, a, env);
      assert RowAnswered(s.tables, Heard(a.request).value.observations[i], a.results[i], env);
    }
  }

  lemma OnlyIngestionTouchesTables(s: State, step: Step, env: Env)
    requires !step.Commit? && !step.IngestOther?
    ensures Next(s, step, env).tables == s.tables
  {
    match step
    case Finish(job, o, clock) => assert Finished(s, o, clock, env).tables == s.tables;
    case Send(now, rows, batchId, built) => assert Uploading(s, built, now).tables == s.tables;
    case _ =>
  }

  lemma CommitExtends(s: State, request: Sent, now: Instant, env: Env)
    requires Consistent(s.tables, env.db)
    ensures Extends(s.tables, ServerIngest(s, request, now, env).tables)
  {
    if Heard(request).Some? {
      var m := Heard(request).value;
      if Decoded(env, m.observations).Some? {
        IngestExtends(s.tables, ServerSnapshots(s.config), env.agent, m.revision, now, Decoded(env, m.observations).value, env.db);
      }
    }
  }

  lemma StepExtends(s: State, step: Step, env: Env)
    requires Consistent(s.tables, env.db)
    ensures Extends(s.tables, Next(s, step, env).tables)
  {
    if step.Commit? {
      CommitExtends(s, step.request, step.serverNow, env);
    } else if step.IngestOther? {
      IngestExtends(s.tables, step.snapshots, step.agent, step.revision, step.serverNow, step.ws, env.db);
    } else {
      OnlyIngestionTouchesTables(s, step, env);
    }
  }

  lemma IngestExtends(t: Tables, snapshots: map<int, Configured>, agent: string, revision: int, now: Instant, ws: seq<Wire>, db: Backend)
    requires Consistent(t, db)
    ensures var outcome := Ingested(t, snapshots, agent, revision, now, ws, db);
            outcome.Some? ==> Extends(t, outcome.value.0)
  {
    if Ingested(t, snapshots, agent, revision, now, ws, db).Some? {
      IngestAnswers(t, snapshots, agent, revision, now, ws, db);
    }
  }

  /** What the server has stored stays as first stored, through every later step. */
  lemma {:induction false} StoredOnceForAll(past: seq<Step>, future: seq<Step>, env: Environment)
    ensures Extends(Run(past, env).tables, Run(past + future, env).tables)
  {
    if future == [] {
      assert past + future == past;
    } else {
      var n := |future| - 1;
      StoredOnceForAll(past, future[..n], env);
      LastStepExtends(past + future, env);
      assert (past + future)[..|past + future| - 1] == past + future[..n];
    }
  }

  lemma LastStepExtends(steps: seq<Step>, env: Env)
    requires ValidEnv(env) && steps != []
    ensures Extends(Run(steps[..|steps| - 1], env).tables, Run(steps, env).tables)
  {
    NothingIsLost(steps[..|steps| - 1], env);
    StepExtends(Run(steps[..|steps| - 1], env), steps[|steps| - 1], env);
  }

  /**
  Re-ingestion is harmless in every run: once some answer said that row `i` of a request was accepted or
  duplicate, then at any later time, in any upload by any agent under any snapshot, that observation
  changes no table and no other answer, and is itself answered duplicate or with the refusal that applies.
  */
  lemma ReplayNeverHarms(past: seq<Step>, future: seq<Step>, a: Answer, i: nat, d: Context, xs: seq<Wire>, ys: seq<Wire>, env: Environment)
    requires a in Run(past, env).answers && i < |a.results| && (a.results[i].disposition.Accepted? || a.results[i].disposition.Duplicate?)
    ensures Heard(a.request).Some? && i < |Heard(a.request).value.observations| && env.decode(Heard(a.request).value.observations[i]).Some?
    ensures var t := Run(past + future, env).tables;
            var w := env.decode(Heard(a.request).value.observations[i]).value;
            && Stored(t, w, env.db)
            && All(t, d, xs + [w] + ys, env.db) ==
                 match All(t, d, xs + ys, env.db)
                 case None => None
                 case Some((after, answers)) => Some((after, WithAnswer(answers, |xs|, ReplayAnswer(d, w))))
  {
    RunKeeps(past, env);
    RunKeeps(past + future, env);
    assert AnswerSound(Run(past, env).sent, Run(past, env).tables, a, env);
    assert RowAnswered(Run(past, env).tables, Heard(a.request).value.observations[i], a.results[i], env);
    StoredOnceForAll(past, future, env);
    ReplayAddsNothing(Run(past + future, env).tables, d, xs, env.decode(Heard(a.request).value.observations[i]).value, ys, env.db);
  }
}
