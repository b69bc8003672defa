/**
What holds of every run of the scheduler: every slot accounted for, no slot run twice, no cursor moved
by a superseded job, and the pool of workers never overdrawn.
*/
module SchedulerSafety {
  import opened Options
  import opened Scheduler
  import opened Ledger
  import opened SchedulerRuns

  // ---------------------------------------------------------------- the pool

  predicate Active(p: Pool, id: nat) {
    id in p.live && p.live[id].phase != Cleared
  }

  ghost predicate PoolGood(p: Pool, capacity: nat) {
    && p.workers == |p.live| <= capacity
    && (forall id :: id in p.live ==> id < p.next)
    && (forall id :: Active(p, id) ==> p.live[id].monitor in p.running)
    && (forall a, b :: Active(p, a) && Active(p, b) && a != b ==> p.live[a].monitor != p.live[b].monitor)
    && (forall m :: m in p.running ==> exists id :: Active(p, id) && p.live[id].monitor == m)
  }

  /** A claim that will start a run has a free worker, and its monitor is not running. */
  ghost predicate ClaimHasWorker(s: State, capacity: nat) {
    s.tick.Some? && s.tick.value.claim.Some? && s.tick.value.claim.value.starts ==>
      s.pool.workers < capacity && s.tick.value.claim.value.monitor !in s.pool.running
  }

  ghost predicate PoolFits(s: State, capacity: nat) {
    PoolGood(s.pool, capacity) && ClaimHasWorker(s, capacity)
  }

  lemma SpawnGood(p: Pool, capacity: nat, m: string)
    requires PoolGood(p, capacity) && p.workers < capacity && m !in p.running
    ensures PoolGood(Spawned(p, m), capacity)
  {
    var q := Spawned(p, m);
    SpawnActive(p, m);
    assert q.live.Keys == p.live.Keys + {p.next};
    SpawnKeepsRunning(p, capacity, m);
  }

  lemma SpawnActive(p: Pool, m: string)
    requires p.next !in p.live
    ensures forall id :: Active(Spawned(p, m), id) <==> id == p.next || Active(p, id)
  {
  }

  lemma SpawnKeepsRunning(p: Pool, capacity: nat, m: string)
    requires PoolGood(p, capacity) && m !in p.running
    ensures forall x :: x in Spawned(p, m).running ==> exists id :: Active(Spawned(p, m), id) && Spawned(p, m).live[id].monitor == x
  {
    var q := Spawned(p, m);
    forall x | x in q.running ensures exists id :: Active(q, id) && q.live[id].monitor == x {
      if x == m {
        assert Active(q, p.next);
      } else {
        var id :| Active(p, id) && p.live[id].monitor == x;
        assert Active(q, id);
      }
    }
  }

  /** The same executions are active, of the same monitors. */
  lemma SameActive(p: Pool, q: Pool, capacity: nat)
    requires PoolGood(p, capacity) && q.running == p.running && q.next == p.next
    requires q.workers == |q.live| <= capacity && q.live.Keys <= p.live.Keys
    requires forall x :: Active(q, x) <==> Active(p, x)
    requires forall x :: x in q.live ==> q.live[x].monitor == p.live[x].monitor
    ensures PoolGood(q, capacity)
  {
    forall m | m in q.running ensures exists x :: Active(q, x) && q.live[x].monitor == m {
      var x :| Active(p, x) && p.live[x].monitor == m;
      assert Active(q, x);
    }
  }

  lemma PublishGood(p: Pool, capacity: nat, id: nat)
    requires PoolGood(p, capacity)
    ensures PoolGood(Phased(p, id, Probing, Published), capacity)
  {
    var q := Phased(p, id, Probing, Published);
    assert q.live.Keys == p.live.Keys;
    SameActive(p, q, capacity);
  }

  lemma ClearGood(p: Pool, capacity: nat, id: nat)
    requires PoolGood(p, capacity)
    ensures PoolGood(Unmarked(p, id), capacity)
  {
    var q := Unmarked(p, id);
    if q != p {
      assert q.live.Keys == p.live.Keys;
      assert Active(p, id);
      forall x ensures Active(q, x) <==> Active(p, x) && x != id {
      }
      forall m | m in q.running ensures exists x :: Active(q, x) && q.live[x].monitor == m {
        var x :| Active(p, x) && p.live[x].monitor == m;
        assert Active(q, x);
      }
    }
  }

  lemma ReleaseGood(p: Pool, capacity: nat, id: nat)
    requires PoolGood(p, capacity)
    ensures PoolGood(Freed(p, id), capacity) && Freed(p, id).workers <= p.workers
  {
    var q := Freed(p, id);
    if q != p {
      assert q.live.Keys == p.live.Keys - {id};
      SameActive(p, q, capacity);
    }
  }

  lemma PoolStep(s: State, capacity: nat, step: Step)
    requires PoolFits(s, capacity)
    ensures PoolFits(Next(s, capacity, step), capacity)
  {
    match step
    case Finish =>
      if Finishing(s) && s.tick.value.claim.value.starts {
        SpawnGood(s.pool, capacity, s.tick.value.claim.value.monitor);
      }
    case Publish(id) => PublishGood(s.pool, capacity, id);
    case Clear(id) => ClearGood(s.pool, capacity, id);
    case Release(id) => ReleaseGood(s.pool, capacity, id);
    case _ =>
  }

  // ---------------------------------------------------------------- the log

  /** Nothing between `i` and `j` advanced or started a run. */
  ghost predicate Quiet(log: seq<Event>, i: int, j: int) {
    forall x :: i < x < j && 0 <= x < |log| ==> !log[x].WasAdvanced? && !log[x].WasStarted?
  }

  /** The run started at `j` was claimed at its entry, the last advance before it. */
  ghost predicate StartBacked(log: seq<Event>, j: int)
    requires 0 <= j < |log| && log[j].WasStarted?
  {
    var e := log[j];
    && e.entry < j && log[e.entry].WasAdvanced? && log[e.entry].starts
    && log[e.entry].m == e.m && log[e.entry].revision == e.revision && log[e.entry].at == e.at
    && Quiet(log, e.entry, j)
  }

  /** An advance stands in the ledger, at its slot. */
  ghost predicate Entered(b: Book, e: Event)
    requires e.WasAdvanced?
  {
    var k := Key(e.m, e.revision.config);
    Tracked(b, k) && e.slot < |b.slots[k]| && b.slots[k][e.slot] == Fate(e.at, e.starts)
  }

  /** No cursor of `m` is restored for a configuration later than its stored one. */
  ghost predicate RestoreKnown(b: Book, e: Event)
    requires e.WasRestored?
  {
    e.revision.config <= b.latest && (e.m in b.rows ==> e.revision.config <= b.rows[e.m].revision.config)
  }

  ghost predicate StartsBacked(log: seq<Event>) {
    forall j :: 0 <= j < |log| && log[j].WasStarted? ==> StartBacked(log, j)
  }

  /** Once a cursor is restored, only its own configuration or a later one advances it. */
  ghost predicate Fenced(log: seq<Event>) {
    forall i, j :: 0 <= i < j < |log| && log[i].WasRestored? && log[j].WasAdvanced? && log[i].m == log[j].m ==>
      log[i].revision.config <= log[j].revision.config
  }

  predicate SameKeys(e: Event, f: Event) {
    e.m == f.m && e.revision.config == f.revision.config
  }

  /** Later advances of a key are at later slots. */
  ghost predicate SlotsAscend(log: seq<Event>) {
    forall i, j :: 0 <= i < j < |log| && log[i].WasAdvanced? && log[j].WasAdvanced? && SameKeys(log[i], log[j]) ==>
      log[i].slot < log[j].slot
  }

  ghost predicate LogAgrees(b: Book, log: seq<Event>) {
    && (forall i :: 0 <= i < |log| && log[i].WasAdvanced? ==> Entered(b, log[i]))
    && (forall i :: 0 <= i < |log| && log[i].WasRestored? ==> RestoreKnown(b, log[i]))
  }

  ghost predicate ClaimLogged(s: State) {
    s.tick.Some? && s.tick.value.claim.Some? && s.tick.value.claim.value.entry.Some? ==>
      var c := s.tick.value.claim.value;
      var i := c.entry.value;
      && i < |s.log| && s.log[i].WasAdvanced? && s.log[i].starts == c.starts
      && s.log[i].m == c.monitor && s.log[i].revision == c.job.revision && s.log[i].at == c.job.nextDue
      && Quiet(s.log, i, |s.log|)
  }

  ghost predicate LogFits(s: State) {
    StartsBacked(s.log) && Fenced(s.log) && SlotsAscend(s.log) && LogAgrees(s.book, s.log) && ClaimLogged(s)
  }

  lemma StartsBackedAppend(log: seq<Event>, e: Event)
    requires StartsBacked(log) && (e.WasStarted? ==> StartBacked(log + [e], |log|))
    ensures StartsBacked(log + [e])
  {
    forall j | 0 <= j < |log + [e]| && (log + [e])[j].WasStarted? ensures StartBacked(log + [e], j) {
      if j < |log| {
        assert StartBacked(log, j);
      }
    }
  }

  lemma FencedAppend(b: Book, log: seq<Event>, e: Event)
    requires Fenced(log) && LogAgrees(b, log)
    requires e.WasAdvanced? ==> RowCarries(b, e.m, e.revision)
    ensures Fenced(log + [e])
  {
    forall i | 0 <= i < |log| && log[i].WasRestored? ensures RestoreKnown(b, log[i]) {
    }
  }

  lemma SlotsAscendAppend(b: Book, log: seq<Event>, e: Event)
    requires SlotsAscend(log) && LogAgrees(b, log)
    requires e.WasAdvanced? ==> Key(e.m, e.revision.config) in b.slots && e.slot == |b.slots[Key(e.m, e.revision.config)]|
    ensures SlotsAscend(log + [e])
  {
    forall i | 0 <= i < |log| && log[i].WasAdvanced? ensures Entered(b, log[i]) {
    }
  }

  lemma LogAgreesGrows(b: Book, c: Book, log: seq<Event>)
    requires LogAgrees(b, log) && Grows(b, c) && b.latest <= c.latest
    requires forall m :: m in c.rows ==> (m in b.rows && b.rows[m].revision.config == c.rows[m].revision.config) || c.rows[m].revision.config == c.latest
    ensures LogAgrees(c, log)
  {
    forall i | 0 <= i < |log| && log[i].WasAdvanced? ensures Entered(c, log[i]) {
      assert Entered(b, log[i]);
    }
    forall i | 0 <= i < |log| && log[i].WasRestored? ensures RestoreKnown(c, log[i]) {
      assert RestoreKnown(b, log[i]);
    }
  }

  lemma LogAgreesAppend(b: Book, log: seq<Event>, e: Event)
    requires LogAgrees(b, log) && (e.WasAdvanced? ==> Entered(b, e)) && (e.WasRestored? ==> RestoreKnown(b, e))
    ensures LogAgrees(b, log + [e])
  {
  }

  lemma AdvanceLogged(s: State)
    requires Fits(s) && LogFits(s) && Advancing(s)
    ensures LogFits(Pushed(s))
  {
    var s' := Pushed(s);
    var e := s'.log[|s.log|];
    assert s'.log == s.log + [e];
    var c := s.tick.value.claim.value;
    AdvanceFits(s);
    if RowCarries(s.book, c.monitor, c.job.revision) {
      AdvanceEntered(s);
      LogAgreesGrows(s.book, s'.book, s.log);
      LogAgreesAppend(s'.book, s.log, e);
    } else {
      LogAgreesAppend(s.book, s.log, e);
    }
    StartsBackedAppend(s.log, e);
    FencedAppend(s.book, s.log, e);
    SlotsAscendAppend(s.book, s.log, e);
  }

  lemma AdvanceEntered(s: State)
    requires Fits(s) && Advancing(s) && RowCarries(s.book, s.tick.value.claim.value.monitor, s.tick.value.claim.value.job.revision)
    ensures |Pushed(s).log| == |s.log| + 1 && Pushed(s).log[|s.log|].WasAdvanced?
    ensures Entered(Pushed(s).book, Pushed(s).log[|s.log|])
    ensures Key(Pushed(s).log[|s.log|].m, Pushed(s).log[|s.log|].revision.config) in s.book.slots
  {
    var c := s.tick.value.claim.value;
    assert JobFits(s.book, c.monitor, c.job);
    FirstFate(s.book, c.monitor, c.job, s.tick.value.now, c.starts);
  }

  lemma FirstFate(b: Book, m: string, job: Job, now: int, starts: bool)
    requires job.interval > 0 && job.nextDue <= now && RowCarries(b, m, job.revision) && Tracked(b, Key(m, job.revision.config))
    ensures var k := Key(m, job.revision.config);
            var after := AdvancedIn(b, m, job.revision, job.nextDue, job.interval, now, starts);
            Tracked(after, k) && |b.slots[k]| < |after.slots[k]| && after.slots[k][|b.slots[k]|] == Fate(job.nextDue, starts)
  {
    var n := Elapsed(job.nextDue, job.interval, now);
    assert n >= 1;
    assert Fates(job.nextDue, job.interval, n, starts)[0] == Fate(At(job.nextDue, job.interval, 0), starts);
  }

  lemma FinishLogged(s: State)
    requires LogFits(s) && Finishing(s)
    ensures LogFits(Finished(s))
  {
    var c := s.tick.value.claim.value;
    if c.starts {
      var e := WasStarted(c.monitor, c.job.revision, c.job.nextDue, c.entry.value);
      assert Quiet(s.log + [e], c.entry.value, |s.log|);
      StartsBackedAppend(s.log, e);
      FencedAppend(s.book, s.log, e);
      SlotsAscendAppend(s.book, s.log, e);
      LogAgreesAppend(s.book, s.log, e);
    }
  }

  lemma RestoreAgrees(b: Book, m: string, initialDue: int, now: int, log: seq<Event>)
    requires Good(b) && b.latest in b.configs && m in b.configs[b.latest] && b.configs[b.latest][m].interval > 0
    requires LogAgrees(b, log)
    ensures LogAgrees(RestoredIn(b, m, initialDue, now), log + [WasRestored(m, RestoredIn(b, m, initialDue, now).rows[m].revision)])
  {
    var c := RestoredIn(b, m, initialDue, now);
    RestoreGrows(b, m, initialDue, now);
    LogAgreesGrows(b, c, log);
    LogAgreesAppend(c, log, WasRestored(m, c.rows[m].revision));
  }

  lemma RestoreLogged(s: State, m: string, initialDue: int)
    requires Good(s.book) && LogFits(s) && Restorable(s, m)
    ensures LogFits(RestoredOne(s, m, initialDue))
  {
    var e := WasRestored(m, RestoredIn(s.book, m, initialDue, s.change.now).rows[m].revision);
    RestoreAgrees(s.book, m, initialDue, s.change.now, s.log);
    StartsBackedAppend(s.log, e);
    FencedAppend(s.book, s.log, e);
    SlotsAscendAppend(s.book, s.log, e);
  }

  lemma OfferAgrees(b: Book, config: int, a: Assignments, log: seq<Event>)
    requires Good(b) && Offers(b, config, a) && LogAgrees(b, log)
    ensures LogAgrees(Offered(b, config, a), log)
  {
    OfferGrows(b, config, a);
    LogAgreesGrows(b, Offered(b, config, a), log);
  }

  lemma PruneAgrees(b: Book, log: seq<Event>)
    requires b.latest in b.configs && LogAgrees(b, log)
    ensures LogAgrees(PrunedIn(b), log)
  {
    LogAgreesGrows(b, PrunedIn(b), log);
  }

  /** A step that adds nothing to the log. */
  lemma SilentLogged(s: State, capacity: nat, step: Step)
    requires Good(s.book) && LogFits(s) && !step.Advance? && !step.Finish? && !step.RestoreOne?
    ensures LogFits(Next(s, capacity, step))
  {
    match step
    case BeginChange(config, a, now) =>
      if Offers(s.book, config, a) {
        OfferAgrees(s.book, config, a, s.log);
      }
    case Remove =>
      if s.book.latest in s.book.configs {
        PruneAgrees(s.book, s.log);
      }
    case _ =>
  }

  lemma LogStep(s: State, capacity: nat, step: Step)
    requires Fits(s) && LogFits(s)
    ensures LogFits(Next(s, capacity, step))
  {
    if step.Advance? {
      if Advancing(s) {
        AdvanceLogged(s);
      }
    } else if step.Finish? {
      if Finishing(s) {
        FinishLogged(s);
      }
    } else if step.RestoreOne? {
      if Restorable(s, step.m) {
        RestoreLogged(s, step.m, step.initialDue);
      }
    } else {
      SilentLogged(s, capacity, step);
    }
  }

  // ---------------------------------------------------------------- every run

  ghost predicate Inv(s: State, capacity: nat) {
    Fits(s) && PoolFits(s, capacity) && LogFits(s)
  }

  lemma {:induction false} RunKeeps(capacity: nat, steps: seq<Step>)
    ensures Inv(Run(capacity, steps), capacity)
  {
    if steps != [] {
      var s := Run(capacity, steps[..|steps| - 1]);
      RunKeeps(capacity, steps[..|steps| - 1]);
      StepFits(s, capacity, steps[|steps| - 1]);
      PoolStep(s, capacity, steps[|steps| - 1]);
      LogStep(s, capacity, steps[|steps| - 1]);
    }
  }

  /**
  Slot accounting, over any number of ticks, configuration changes and restarts: a stored cursor stands
  at its first due time plus one interval for every slot claimed or missed, the stored count is the
  number missed, and every slot of the grid before the cursor is in the ledger exactly once, in order.
  */
  lemma SlotAccounting(capacity: nat, steps: seq<Step>, m: string)
    requires m in Run(capacity, steps).book.rows
    ensures var b := Run(capacity, steps).book;
            var row := b.rows[m];
            var k := Key(m, row.revision.config);
            && Tracked(b, k) && row.revision == RevisionOf(b, k)
            && row.missed == Misses(b.slots[k])
            && row.nextDue == b.first[k] + Interval(b, k) * (Claims(b.slots[k]) + row.missed)
            && forall i :: 0 <= i < |b.slots[k]| ==> b.slots[k][i].at == b.first[k] + Interval(b, k) * i
  {
    RunKeeps(capacity, steps);
    var b := Run(capacity, steps).book;
    var k := Key(m, b.rows[m].revision.config);
    assert RowAgrees(b, k, b.rows[m]);
    ClaimsAndMisses(b.slots[k]);
    assert OnGrid(b.first[k], Interval(b, k), b.slots[k]);
  }

  /** A run is started only for a slot the ledger shows as claimed. */
  lemma StartedWasClaimed(capacity: nat, steps: seq<Step>, j: nat)
    requires j < |Run(capacity, steps).log| && Run(capacity, steps).log[j].WasStarted?
    ensures var s := Run(capacity, steps);
            var e := s.log[j];
            var k := Key(e.m, e.revision.config);
            e.entry < j && s.log[e.entry].WasAdvanced? && Tracked(s.book, k) && s.log[e.entry].slot < |s.book.slots[k]| &&
            s.book.slots[k][s.log[e.entry].slot] == Fate(e.at, true)
  {
    RunKeeps(capacity, steps);
    var s := Run(capacity, steps);
    assert StartBacked(s.log, j);
    assert Entered(s.book, s.log[s.log[j].entry]);
  }

  /** No slot of a configuration is run twice, whatever restarts come between claiming and starting it. */
  lemma NoSlotRunsTwice(capacity: nat, steps: seq<Step>, i: nat, j: nat)
    requires var log := Run(capacity, steps).log;
             i < j < |log| && log[i].WasStarted? && log[j].WasStarted? && SameKeys(log[i], log[j])
    ensures Run(capacity, steps).log[i].at != Run(capacity, steps).log[j].at
  {
    RunKeeps(capacity, steps);
    var s := Run(capacity, steps);
    var k := Key(s.log[i].m, s.log[i].revision.config);
    StartedWasClaimed(capacity, steps, i);
    StartedWasClaimed(capacity, steps, j);
    assert StartBacked(s.log, i) && StartBacked(s.log, j);
    var x, y := s.log[i].entry, s.log[j].entry;
    assert x < i <= y;
    assert s.log[x].slot < s.log[y].slot;
    IntervalPositive(s.book, k);
    assert OnGrid(s.book.first[k], Interval(s.book, k), s.book.slots[k]);
    StrictGrid(s.book.first[k], Interval(s.book, k), s.log[x].slot, s.log[y].slot);
  }

  lemma StrictGrid(first: int, interval: int, i: nat, j: nat)
    requires interval > 0 && i < j
    ensures At(first, interval, i) < At(first, interval, j)
  {
    assert interval * (j - i) > 0;
  }

  /**
  Fencing.  A run starts only after an advance that found the stored row carrying the job's revisions,
  with no other advance or start between; and once the cursor of a monitor has been restored for one
  configuration, no earlier configuration ever advances it again.  So a run of a superseded assignment
  starts after the restore only if its advance came before.
  */
  lemma SupersededNeverAdvances(capacity: nat, steps: seq<Step>, i: nat, j: nat)
    requires var log := Run(capacity, steps).log;
             i < j < |log| && log[i].WasRestored? && log[i].m == log[j].m && log[j].revision.config < log[i].revision.config
    ensures !Run(capacity, steps).log[j].WasAdvanced?
    ensures Run(capacity, steps).log[j].WasStarted? ==>
              Run(capacity, steps).log[j].entry < i && Quiet(Run(capacity, steps).log, Run(capacity, steps).log[j].entry, j)
  {
    RunKeeps(capacity, steps);
    FencedLog(Run(capacity, steps).log, i, j);
  }

  lemma FencedLog(log: seq<Event>, i: nat, j: nat)
    requires StartsBacked(log) && Fenced(log)
    requires i < j < |log| && log[i].WasRestored? && log[i].m == log[j].m && log[j].revision.config < log[i].revision.config
    ensures !log[j].WasAdvanced?
    ensures log[j].WasStarted? ==> log[j].entry < i && Quiet(log, log[j].entry, j)
  {
    if log[j].WasStarted? {
      assert StartBacked(log, j);
    }
  }

  /** Tick's error needs a configuration change under way: otherwise every job's row is its own. */
  lemma RefusedOnlyDuringChange(capacity: nat, steps: seq<Step>)
    requires Run(capacity, steps).change.Idle?
    ensures forall m :: m in Run(capacity, steps).jobs ==>
              RowCarries(Run(capacity, steps).book, m, Run(capacity, steps).jobs[m].revision)
              && Run(capacity, steps).book.rows[m].nextDue == Run(capacity, steps).jobs[m].nextDue
    ensures |Next(Run(capacity, steps), capacity, Advance).log| > |Run(capacity, steps).log| ==>
              Next(Run(capacity, steps), capacity, Advance).log[|Run(capacity, steps).log|].WasAdvanced?
  {
    RunKeeps(capacity, steps);
    var s := Run(capacity, steps);
    forall m | m in s.jobs ensures RowCarries(s.book, m, s.jobs[m].revision) && s.book.rows[m].nextDue == s.jobs[m].nextDue {
      assert JobFits(s.book, m, s.jobs[m]);
    }
  }

  /**
  Worker safety.  Tokens taken are live executions and never more than the pool; a monitor counts as
  running exactly while it has an execution not yet cleared, and has at most one; and when a tick comes
  to start a run there is a free token, so taking it cannot block.
  */
  lemma WorkerSafety(capacity: nat, steps: seq<Step>)
    ensures var s := Run(capacity, steps);
            && s.pool.workers == |s.pool.live| <= capacity
            && (forall m :: m in s.pool.running <==> exists id :: Active(s.pool, id) && s.pool.live[id].monitor == m)
            && (forall a, b :: Active(s.pool, a) && Active(s.pool, b) && s.pool.live[a].monitor == s.pool.live[b].monitor ==> a == b)
            && (Finishing(s) && s.tick.value.claim.value.starts ==> s.pool.workers < capacity)
  {
    RunKeeps(capacity, steps);
  }

  // ---------------------------------------------------------------- a late start

  lemma RunStep(capacity: nat, steps: seq<Step>, step: Step)
    ensures Run(capacity, steps + [step]) == Next(Run(capacity, steps), capacity, step)
  {
    var t := steps + [step];
    assert t[..|t| - 1] == steps;
  }

  /** A probe that has published, been cleared and given its worker back leaves the pool as if it had never started. */
  lemma FinishedProbeFreesWorker(capacity: nat, steps: seq<Step>, id: nat)
    requires var s := Run(capacity, steps); id in s.pool.live && s.pool.live[id].phase == Probing && s.tick.None?
    ensures var s, t := Run(capacity, steps), Run(capacity, steps + [Publish(id)] + [Clear(id)] + [Release(id)]);
            && t.pool.live == s.pool.live - {id} && t.pool.workers + 1 == s.pool.workers
            && t.pool.running == s.pool.running - {s.pool.live[id].monitor} && t == s.(pool := t.pool)
  {
    WorkerSafety(capacity, steps);
    RunStep(capacity, steps, Publish(id));
    RunStep(capacity, steps + [Publish(id)], Clear(id));
    RunStep(capacity, steps + [Publish(id)] + [Clear(id)], Release(id));
    ProbeEnds(Run(capacity, steps).pool, id);
  }

  lemma ProbeEnds(p: Pool, id: nat)
    requires id in p.live && p.live[id].phase == Probing && p.workers > 0
    ensures var q := Freed(Unmarked(Phased(p, id, Probing, Published), id), id);
            q == p.(live := p.live - {id}, workers := p.workers - 1, running := p.running - {p.live[id].monitor})
  {
    var a := Phased(p, id, Probing, Published);
    var b := Unmarked(a, id);
    assert b.live == p.live[id := p.live[id].(phase := Cleared)];
    assert b.live - {id} == p.live - {id};
  }

  /** In a tick, a due run whose monitor is idle starts if a worker is free and the stored row is the job's own. */
  lemma DueRunStarts(capacity: nat, steps: seq<Step>, m: string)
    requires var s := Run(capacity, steps);
             && s.tick.Some? && s.tick.value.claim.None? && m in s.tick.value.rest && m in s.jobs && s.jobs[m].nextDue <= s.tick.value.now
             && m !in s.pool.running && s.pool.workers < capacity && RowCarries(s.book, m, s.jobs[m].revision)
    ensures var s, t := Run(capacity, steps), Run(capacity, steps + [Pick(m)] + [Advance] + [Finish]);
            && t.pool.running == s.pool.running + {m} && t.pool.workers == s.pool.workers + 1
            && t.pool.next == s.pool.next + 1 && t.pool.live == s.pool.live[s.pool.next := Execution(m, Probing)]
            && m in t.jobs && t.jobs[m].nextDue > s.tick.value.now && t.tick == Some(s.tick.value.(rest := s.tick.value.rest - {m}))
            && |t.log| == |s.log| + 2 && t.log[..|s.log|] == s.log
            && t.log[|s.log| + 1] == WasStarted(m, s.jobs[m].revision, s.jobs[m].nextDue, |s.log|)
            && t.log[|s.log|].WasAdvanced? && t.log[|s.log|].m == m && t.log[|s.log|].at == s.jobs[m].nextDue && t.log[|s.log|].starts
  {
    RunKeeps(capacity, steps);
    var s := Run(capacity, steps);
    RunStep(capacity, steps, Pick(m));
    RunStep(capacity, steps + [Pick(m)], Advance);
    RunStep(capacity, steps + [Pick(m)] + [Advance], Finish);
    IntervalPositive(s.book, Key(m, s.jobs[m].revision.config));
    CaughtUpIsNext(s.jobs[m].nextDue, s.jobs[m].interval, s.tick.value.now);
    StartsNow(s, capacity, m);
  }

  lemma StartsNow(s: State, capacity: nat, m: string)
    requires s.tick.Some? && s.tick.value.claim.None? && m in s.tick.value.rest && m in s.jobs && s.jobs[m].nextDue <= s.tick.value.now
    requires m !in s.pool.running && s.pool.workers < capacity && RowCarries(s.book, m, s.jobs[m].revision) && s.jobs[m].interval > 0
    ensures var t := Next(Next(Next(s, capacity, Pick(m)), capacity, Advance), capacity, Finish);
            && t.pool == Spawned(s.pool, m) && t.tick == Some(s.tick.value.(rest := s.tick.value.rest - {m}))
            && t.jobs == s.jobs[m := s.jobs[m].(nextDue := CaughtUp(s.jobs[m].nextDue, s.jobs[m].interval, s.tick.value.now))]
            && |t.log| == |s.log| + 2 && t.log[..|s.log|] == s.log
            && t.log[|s.log| + 1] == WasStarted(m, s.jobs[m].revision, s.jobs[m].nextDue, |s.log|)
            && t.log[|s.log|].WasAdvanced? && t.log[|s.log|].m == m && t.log[|s.log|].at == s.jobs[m].nextDue && t.log[|s.log|].starts
  {
    var a := Next(s, capacity, Pick(m));
    assert a == s.(tick := Some(s.tick.value.(claim := Some(Claim(m, s.jobs[m], true, None)))));
    var b := Next(a, capacity, Advance);
    assert b == Pushed(a) && Finishing(b);
  }

  /**
  Between an advance and its start a configuration change may restore the row for a newer configuration:
  the run then starts all the same.
  */
  lemma LateStart(s: State, capacity: nat, config: int, a: Assignments, now: int, initialDue: int)
    requires Fits(s) && Finishing(s) && s.tick.value.claim.value.starts && s.change.Idle?
    requires config > s.book.latest && ValidAssignments(a) && s.tick.value.claim.value.monitor in a
    ensures var c := s.tick.value.claim.value;
            var s1 := Next(s, capacity, BeginChange(config, a, now));
            var s2 := Next(s1, capacity, RestoreOne(c.monitor, initialDue));
            Next(s2, capacity, Finish).log == s.log + [WasRestored(c.monitor, Revision(a[c.monitor].monitorRevision, config)),
                                                       WasStarted(c.monitor, c.job.revision, c.job.nextDue, c.entry.value)]
  {
    var c := s.tick.value.claim.value;
    assert s.booted <= s.book.latest;
    var s1 := Next(s, capacity, BeginChange(config, a, now));
    assert s1 == Changing(s, config, a, now);
    assert Restorable(s1, c.monitor);
    var s2 := Next(s1, capacity, RestoreOne(c.monitor, initialDue));
    assert s2 == RestoredOne(s1, c.monitor, initialDue);
    assert s2.tick == s.tick;
  }

  /** The steps up to an advanced claim of monitor "m", with the configuration change behind it. */
  function Opening(a: Assignments): seq<Step> {
    [BeginChange(1, a, 0), RestoreOne("m", 0), Remove, Swap, BeginTick(0), Pick("m"), Advance]
  }

  function Opened(a: Assignments, capacity: nat, n: nat): State
    requires n <= 7
  {
    if n == 0 then Initial() else Next(Opened(a, capacity, n - 1), capacity, Opening(a)[n - 1])
  }

  lemma {:induction false} OpenedIsRun(a: Assignments, capacity: nat, n: nat)
    requires n <= 7
    ensures Opened(a, capacity, n) == Run(capacity, Opening(a)[..n])
  {
    if n > 0 {
      OpenedIsRun(a, capacity, n - 1);
      assert Opening(a)[..n] == Opening(a)[..n - 1] + [Opening(a)[n - 1]];
      RunStep(capacity, Opening(a)[..n - 1], Opening(a)[n - 1]);
    }
  }

  const MINUTE := 60 * SECOND

  lemma OpenedRestored(capacity: nat, n: nat)
    requires n == 2
    ensures var a := map["m" := Assignment(1, MINUTE)];
            Restorable(Changing(Initial(), 1, a, 0), "m") && Opened(a, capacity, n) == RestoredOne(Changing(Initial(), 1, a, 0), "m", 0)
  {
    var a := map["m" := Assignment(1, MINUTE)];
    var s1 := Opened(a, capacity, n - 1);
    assert Opened(a, capacity, n - 2) == Initial();
    assert ValidAssignments(a) && Offers(Initial().book, 1, a);
    assert s1 == Changing(Initial(), 1, a, 0);
    assert Restorable(s1, "m");
  }

  lemma OpenedJobs(capacity: nat, n: nat)
    requires n == 4
    ensures var s := Opened(map["m" := Assignment(1, MINUTE)], capacity, n);
            && s.jobs == map["m" := Job(Revision(1, 1), MINUTE, 0)] && s.change.Idle? && s.tick.None?
            && s.pool == Pool({}, 0, map[], 0) && RowCarries(s.book, "m", Revision(1, 1)) && s.book.latest == 1
  {
    var a := map["m" := Assignment(1, MINUTE)];
    OpenedRestored(capacity, n - 2);
    var s2 := Opened(a, capacity, n - 2);
    assert s2.change.left == {};
    assert s2.change.candidates == map["m" := Job(Revision(1, 1), MINUTE, 0)];
    var s3 := Opened(a, capacity, n - 1);
    assert s3.change == Swapping(s2.change.candidates);
  }

  lemma OpenedClaims(capacity: nat, n: nat)
    requires n == 7 && capacity >= 1
    ensures var s := Opened(map["m" := Assignment(1, MINUTE)], capacity, n);
            Finishing(s) && s.tick.value.claim.value.starts && s.tick.value.claim.value.monitor == "m" &&
            s.tick.value.claim.value.job.revision == Revision(1, 1) && s.change.Idle? && s.book.latest == 1
  {
    var a := map["m" := Assignment(1, MINUTE)];
    OpenedJobs(capacity, n - 3);
    var s4 := Opened(a, capacity, n - 3);
    var s5 := Opened(a, capacity, n - 2);
    assert s4.jobs.Keys == {"m"};
    assert s5 == s4.(tick := Some(Tick(0, {"m"}, None)));
    var s6 := Opened(a, capacity, n - 1);
    assert s6 == Picked(s5, capacity, "m");
    assert Advancing(s6);
  }

  /** A superseded assignment can start after its row was restored: a run in which it does. */
  lemma LateStartHappens(capacity: nat) returns (steps: seq<Step>)
    requires capacity >= 1
    ensures exists i, j :: 0 <= i < j < |Run(capacity, steps).log| && Run(capacity, steps).log[i].WasRestored? &&
              Run(capacity, steps).log[j].WasStarted? && Run(capacity, steps).log[i].m == Run(capacity, steps).log[j].m &&
              Run(capacity, steps).log[j].revision.config < Run(capacity, steps).log[i].revision.config
  {
    var a := map["m" := Assignment(1, MINUTE)];
    var newer := map["m" := Assignment(2, MINUTE)];
    var n := 7;
    OpenedIsRun(a, capacity, n);
    OpenedClaims(capacity, n);
    assert Opening(a)[..n] == Opening(a);
    var s := Run(capacity, Opening(a));
    RunKeeps(capacity, Opening(a));
    LateStart(s, capacity, 2, newer, 0, 0);
    var steps1 := Opening(a) + [BeginChange(2, newer, 0)];
    var steps2 := steps1 + [RestoreOne("m", 0)];
    steps := steps2 + [Finish];
    RunStep(capacity, Opening(a), BeginChange(2, newer, 0));
    RunStep(capacity, steps1, RestoreOne("m", 0));
    RunStep(capacity, steps2, Finish);
    var log := Run(capacity, steps).log;
    var i := |s.log|;
    assert log[i].WasRestored? && log[i + 1].WasStarted?;
  }
}
