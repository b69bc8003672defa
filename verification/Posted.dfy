/** What the agent posts, in every run: the server can read each request, and it holds recorded observations only. */
module Posted {
  import opened Options
  import opened TimeKeys
  import opened AgentStore
  import opened UploadText
  import opened Upload
  import opened Ingest
  import opened Delivery
  import Draining

  /** The text is the compacted payload of an observation the queue once accepted. */
  ghost predicate Recording(enqueued: set<(Key, string)>, text: string, env: Env) {
    exists k, p :: (k, p) in enqueued && text == env.compact(p)
  }

  ghost predicate PendingRecorded(pending: map<Key, Observation>, enqueued: set<(Key, string)>) {
    forall k :: k in pending ==> (k, pending[k].payload) in enqueued
  }

  /** Everything to be read in the request is a recording. */
  ghost predicate Genuinely(enqueued: set<(Key, string)>, r: Sent, env: Env) {
    && Heard(r).Some? && Heard(r).value.batchId == r.batchId
    && forall i :: 0 <= i < |Heard(r).value.observations| ==> Recording(enqueued, Heard(r).value.observations[i], env)
  }

  ghost predicate PostedHolds(s: State, env: Env) {
    PendingRecorded(s.queue.pending, s.enqueued) && forall r :: r in s.sent ==> Genuinely(s.enqueued, r, env)
  }

  // ---------------------------------------------------------------- the queue only thins

  lemma SendingThins(s: State, now: Clock, rows: seq<Observation>, batchId: string, built: Result<Batch, BatchError>, env: Env)
    requires Inv(s, env)
    ensures Thinned(s.queue, Sending(s, now, rows, batchId, built, env).queue)
    ensures Sending(s, now, rows, batchId, built, env).enqueued == s.enqueued
  {
    UploadingThins(s, built, now, env);
    SendingIs(s, now, rows, batchId, built, env);
  }

  lemma UploadingThins(s: State, built: Result<Batch, BatchError>, now: Clock, env: Env)
    requires QueueHolds(s.queue, env) && AllAccounted(s.queue, s.tables, s.enqueued, env)
    ensures Thinned(s.queue, Uploading(s, built, now).queue) && Uploading(s, built, now).enqueued == s.enqueued
  {
    if built.Err? && !built.error.BadLimits? {
      SetAsideFits(s.queue, s.tables, s.enqueued, built.error, now, env);
    }
  }

  lemma SendingIs(s: State, now: Clock, rows: seq<Observation>, batchId: string, built: Result<Batch, BatchError>, env: Env)
    ensures Sending(s, now, rows, batchId, built, env) == s || Sending(s, now, rows, batchId, built, env) == Uploading(s, built, now)
  {
  }

  lemma ReceivedThins(s: State, answer: Answer, retryAfterSeconds: Option<int>, now: Clock, later: Clock, env: Env)
    requires Inv(s, env)
    ensures Thinned(s.queue, Received(s, answer, retryAfterSeconds, now, later, env).queue)
    ensures Received(s, answer, retryAfterSeconds, now, later, env).enqueued == s.enqueued
  {
    if answer in s.answers && s.flight.Some? && s.flight.value.batchId == answer.request.batchId {
      assert AnswerSound(s.sent, s.tables, answer, env);
      EchoedIdentifier(s.flight.value, s.queue, s.sent, s.tables, answer, env);
      ConclusionFits(s.queue, s.tables, s.enqueued, s.flight.value, s.sent, answer, retryAfterSeconds, now, later, env);
    }
  }

  lemma LostThins(s: State, retryAfter: int, later: Clock, env: Env)
    requires Inv(s, env)
    ensures Thinned(s.queue, Lost(s, retryAfter, later, env).queue) && Lost(s, retryAfter, later, env).enqueued == s.enqueued
  {
    FailureFits(s.queue, s.tables, s.enqueued, retryAfter, later, env);
  }

  lemma StepThins(s: State, step: Step, env: Env)
    requires Inv(s, env) && !step.Finish?
    ensures Thinned(s.queue, Next(s, step, env).queue) && Next(s, step, env).enqueued == s.enqueued
  {
    if step.Send? {
      SendingThins(s, step.now, step.rows, step.batchId, step.built, env);
    } else if step.Receive? {
      ReceivedThins(s, step.answer, step.retryAfterSeconds, step.now, step.later, env);
    } else if step.Lose? {
      LostThins(s, step.retryAfter, step.later, env);
    } else {
      Draining.QueueStays(s, step, env);
    }
  }

  lemma ThinnedRecorded(before: Database, after: Database, enqueued: set<(Key, string)>)
    requires PendingRecorded(before.pending, enqueued) && Thinned(before, after)
    ensures PendingRecorded(after.pending, enqueued)
  {
  }

  // ---------------------------------------------------------------- what is sent

  lemma OnlySendingPosts(s: State, step: Step, env: Env)
    requires !step.Send?
    ensures Next(s, step, env).sent == s.sent
  {
  }

  lemma BatchGenuine(queue: Database, enqueued: set<(Key, string)>, batch: Batch, env: Env)
    requires PendingRecorded(queue.pending, enqueued) && Loaded(queue, batch) && Spoken(batch, env)
    ensures Genuinely(enqueued, Request(batch), env)
  {
    var m := Heard(Request(batch)).value;
    forall i | 0 <= i < |m.observations| ensures Recording(enqueued, m.observations[i], env) {
      var o := batch.observations[i];
      assert o in batch.observations;
      assert (o.key, o.payload) in enqueued && m.observations[i] == env.compact(o.payload);
    }
  }

  lemma SendingPosts(s: State, now: Clock, rows: seq<Observation>, batchId: string, built: Result<Batch, BatchError>, env: Env)
    requires ValidEnv(env) && Inv(s, env) && PostedHolds(s, env)
    ensures forall r :: r in Sending(s, now, rows, batchId, built, env).sent ==> Genuinely(s.enqueued, r, env)
  {
    SendingIs(s, now, rows, batchId, built, env);
    if Sending(s, now, rows, batchId, built, env) != s && built.Ok? {
      SentIsSpoken(s, now, rows, batchId, built.value, env);
      BatchGenuine(s.queue, s.enqueued, built.value, env);
    }
  }

  lemma SentIsSpoken(s: State, now: Clock, rows: seq<Observation>, batchId: string, batch: Batch, env: Env)
    requires CompactionIsSound(env) && QueueHolds(s.queue, env) && Sending(s, now, rows, batchId, Ok(batch), env) != s
    ensures Loaded(s.queue, batch) && Spoken(batch, env)
  {
    BatchRows(s.queue, now, rows, batchId, batch, env.valid, env.compact);
    BatchSpoken(rows, batchId, batch, env);
  }

  lemma StillGenuine(before: set<(Key, string)>, after: set<(Key, string)>, r: Sent, env: Env)
    requires Genuinely(before, r, env) && before <= after
    ensures Genuinely(after, r, env)
  {
    var m := Heard(r).value;
    forall i | 0 <= i < |m.observations| ensures Recording(after, m.observations[i], env) {
      assert Recording(before, m.observations[i], env);
      var k, p :| (k, p) in before && m.observations[i] == env.compact(p);
      assert (k, p) in after;
    }
  }

  lemma RecordedPosts(s: State, job: Job, o: Observation, clock: Instant, env: Env)
    requires PostedHolds(s, env)
    ensures PostedHolds(Recorded(s, job, o, clock, env), env)
  {
    if job in s.running && RecordedFrom(env, job, o) && Enqueued(s.queue, o, env.limits, clock).Ok? {
      var t := Recorded(s, job, o, clock, env);
      EnqueueKeepsPayload(s.queue, o, env.limits, clock);
      forall r | r in t.sent ensures Genuinely(t.enqueued, r, env) {
        StillGenuine(s.enqueued, t.enqueued, r, env);
      }
    }
  }

  lemma NextIsRecorded(s: State, job: Job, o: Observation, clock: Instant, env: Env)
    ensures Next(s, Finish(job, o, clock), env) == Recorded(s, job, o, clock, env)
  {
  }

  lemma StepPosts(s: State, step: Step, env: Env)
    requires ValidEnv(env) && Inv(s, env) && PostedHolds(s, env)
    ensures PostedHolds(Next(s, step, env), env)
  {
    if step.Finish? {
      RecordedPosts(s, step.job, step.observation, step.clock, env);
      NextIsRecorded(s, step.job, step.observation, step.clock, env);
    } else {
      StepThins(s, step, env);
      ThinnedRecorded(s.queue, Next(s, step, env).queue, s.enqueued);
      if step.Send? {
        SendingPosts(s, step.now, step.rows, step.batchId, step.built, env);
      } else {
        OnlySendingPosts(s, step, env);
      }
    }
  }

  lemma {:induction false} RunPosts(steps: seq<Step>, env: Environment)
    ensures PostedHolds(Run(steps, env), env)
  {
    if steps != [] {
      RunPosts(steps[..|steps| - 1], env);
      RunKeeps(steps[..|steps| - 1], env);
      StepPosts(Run(steps[..|steps| - 1], env), steps[|steps| - 1], env);
    }
  }

  /**
  Every request ever posted is one the server reads, under the identifier the agent waits for, and every
  observation in it is the compacted payload of one the queue accepted.
  */
  lemma EveryRequestIsRead(steps: seq<Step>, env: Environment)
    ensures forall r :: r in Run(steps, env).sent ==> Genuinely(Run(steps, env).enqueued, r, env)
  {
    RunPosts(steps, env);
  }
}
