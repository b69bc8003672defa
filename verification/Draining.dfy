/** Runs in which no observation is recorded twice: pending and quarantined rows stay apart, so the queue drains. */
module Draining {
  import opened Options
  import opened TimeKeys
  import opened AgentStore
  import opened Upload
  import opened Delivery

  /** The queue has accepted an observation with this key before. */
  ghost predicate Known(s: State, k: Key) {
    exists p :: (k, p) in s.enqueued
  }

  /** No execution records an observation that was recorded before. */
  ghost predicate RecordedOnce(steps: seq<Step>, env: Env) {
    forall i :: 0 <= i < |steps| && steps[i].Finish? ==> !Known(Run(steps[..i], env), steps[i].observation.key)
  }

  /** A change of the queue brings in no row, and puts none into both tables that was not in both. */
  ghost predicate MovesAt(before: Database, after: Database, k: Key) {
    && (k in after.pending ==> k in before.pending)
    && (k in after.rejected ==> k in before.pending || k in before.rejected)
    && (k in after.pending && k in after.rejected ==> k in before.rejected)
  }

  ghost predicate Moves(before: Database, after: Database) {
    forall k :: MovesAt(before, after, k)
  }

  lemma AcknowledgedMoves(db: Database, batch: seq<Observation>, acks: seq<Acknowledgement>, now: Clock)
    requires Queued(db, batch) && Acknowledged(db, batch, acks, now).Ok?
    ensures Moves(db, Acknowledged(db, batch, acks, now).value)
  {
    var after := Acknowledged(db, batch, acks, now).value;
    AcknowledgementEffect(db, batch, acks, now);
    forall k ensures MovesAt(db, after, k) {
      if k in Keys(batch) {
        var i :| 0 <= i < |batch| && batch[i].key == k;
        assert batch[i] in batch;
        assert RowSettled(db, after, batch[i], acks[i], now);
      } else {
        assert SameAt(db, after, k);
      }
    }
  }

  lemma ExchangedMoves(db: Database, batch: Batch, exchange: Exchange, now: Clock, later: Clock, random: nat -> real)
    requires Queued(db, batch.observations)
    ensures Moves(db, Exchanged(db, batch, exchange, now, later, random))
  {
    if exchange.Answered? {
      var acks := Acknowledgements(batch, exchange.results, ServerDelay(exchange.retryAfterSeconds), now, random);
      if Acknowledged(db, batch.observations, acks, now).Ok? {
        AcknowledgedMoves(db, batch.observations, acks, now);
      }
    }
  }

  lemma SetAsideMoves(db: Database, error: BatchError, now: Clock)
    requires !error.BadLimits?
    ensures Moves(db, SetAside(db, error, now))
  {
  }

  lemma UploadingMoves(s: State, built: Result<Batch, BatchError>, now: Clock)
    ensures Moves(s.queue, Uploading(s, built, now).queue) && Uploading(s, built, now).enqueued == s.enqueued
  {
    if built.Err? && !built.error.BadLimits? {
      SetAsideMoves(s.queue, built.error, now);
    }
  }

  lemma ConcludedMoves(s: State, answer: Answer, retryAfterSeconds: Option<int>, now: Clock, later: Clock, env: Env)
    requires FlightHolds(s.flight, s.queue, s.sent) && s.flight.Some?
    ensures Moves(s.queue, Concluded(s, answer, retryAfterSeconds, now, later, env).queue)
    ensures Concluded(s, answer, retryAfterSeconds, now, later, env).enqueued == s.enqueued
  {
    ExchangedMoves(s.queue, s.flight.value, Answered(PROTOCOL_VERSION, answer.batchId, answer.results, retryAfterSeconds), now, later, env.random);
  }

  lemma QueueStays(s: State, step: Step, env: Env)
    requires !step.Finish? && !step.Send? && !step.Receive? && !step.Lose?
    ensures Next(s, step, env).queue == s.queue && Next(s, step, env).enqueued == s.enqueued
  {
  }

  /** Every step but a recording moves rows only, and forgets no key. */
  lemma StepMoves(s: State, step: Step, env: Env)
    requires FlightHolds(s.flight, s.queue, s.sent) && !step.Finish?
    ensures Moves(s.queue, Next(s, step, env).queue) && Next(s, step, env).enqueued == s.enqueued
  {
    if step.Send? {
      UploadingMoves(s, step.built, step.now);
      assert Next(s, step, env) == s || Next(s, step, env) == Uploading(s, step.built, step.now);
    } else if step.Receive? {
      if s.flight.Some? {
        ConcludedMoves(s, step.answer, step.retryAfterSeconds, step.now, step.later, env);
      }
    } else if !step.Lose? {
      QueueStays(s, step, env);
    }
  }

  /** Whatever is in either table was recorded, and nothing is in both. */
  ghost predicate Tidy(s: State) {
    Apart(s.queue) && forall k :: k in s.queue.pending || k in s.queue.rejected ==> Known(s, k)
  }

  lemma MovedTidy(s: State, t: State)
    requires Tidy(s) && Moves(s.queue, t.queue) && t.enqueued == s.enqueued
    ensures Tidy(t)
  {
    forall k ensures !(k in t.queue.pending && k in t.queue.rejected) && (k in t.queue.pending || k in t.queue.rejected ==> Known(t, k)) {
      assert MovesAt(s.queue, t.queue, k);
      assert Known(s, k) ==> Known(t, k);
    }
  }

  lemma FinishedTidy(s: State, o: Observation, clock: Instant, env: Env)
    requires Tidy(s) && !Known(s, o.key)
    ensures Tidy(Finished(s, o, clock, env))
  {
    if Enqueued(s.queue, o, env.limits, clock).Ok? {
      var t := Finished(s, o, clock, env);
      EnqueueKeepsPayload(s.queue, o, env.limits, clock);
      assert (o.key, o.payload) in t.enqueued;
      forall k | k in t.queue.pending || k in t.queue.rejected ensures Known(t, k) && !(k in t.queue.pending && k in t.queue.rejected) {
        if k != o.key {
          var p :| (k, p) in s.enqueued;
          assert (k, p) in t.enqueued;
        }
      }
    }
  }

  lemma {:induction false} RunTidy(steps: seq<Step>, env: Environment)
    requires RecordedOnce(steps, env)
    ensures Tidy(Run(steps, env))
  {
    if steps != [] {
      var n := |steps| - 1;
      var s, step := Run(steps[..n], env), steps[n];
      assert forall i :: 0 <= i < n ==> steps[..n][..i] == steps[..i];
      RunTidy(steps[..n], env);
      FlightIsQueued(steps[..n], env);
      StepTidy(s, step, env);
    }
  }

  lemma FlightIsQueued(steps: seq<Step>, env: Environment)
    ensures var s := Run(steps, env); FlightHolds(s.flight, s.queue, s.sent)
  {
    RunKeeps(steps, env);
  }

  lemma StepTidy(s: State, step: Step, env: Env)
    requires Tidy(s) && FlightHolds(s.flight, s.queue, s.sent) && (step.Finish? ==> !Known(s, step.observation.key))
    ensures Tidy(Next(s, step, env))
  {
    if step.Finish? {
      FinishedTidy(s, step.observation, step.clock, env);
    } else {
      StepMoves(s, step, env);
      MovedTidy(s, Next(s, step, env));
    }
  }

  /** In every run that records no observation twice no pending row is also quarantined. */
  lemma RecordedOnceIsApart(steps: seq<Step>, env: Environment)
    requires RecordedOnce(steps, env)
    ensures Apart(Run(steps, env).queue)
  {
    RunTidy(steps, env);
  }

  /** So from any state of such a run, conclusive calls drain the queue, each at least one row. */
  lemma ReachableQueueDrains(steps: seq<Step>, env: Environment, dbs: seq<Database>, calls: seq<CallRecord>, respond: string -> Exchange)
    requires RecordedOnce(steps, env) && dbs != [] && dbs[0] == Run(steps, env).queue
    requires ConclusiveCalls(dbs, calls, respond, env.valid, env.compact, env.random)
    ensures |dbs[|calls|].pending| + |calls| <= |Run(steps, env).queue.pending|
  {
    RecordedOnceIsApart(steps, env);
    DrainBound(dbs, calls, respond, env.valid, env.compact, env.random);
  }
}
