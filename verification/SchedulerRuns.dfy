/**
The scheduler as it runs: ticks, configuration changes, finishing probes and restarts, interleaved
step by step.  A tick holds the scheduler's lock from begin to end; a configuration change restores and
removes stored cursors without it and takes it only to swap the jobs; a finishing probe publishes and
gives its worker back without it and takes it only to stop counting as running.
*/
module SchedulerRuns {
  import opened Options
  import opened Scheduler
  import opened Ledger

  /** A job a tick is handling; `entry` is where the log records that its cursor was advanced. */
  datatype Claim = Claim(monitor: string, job: Job, starts: bool, entry: Option<nat>)

  datatype Tick = Tick(now: int, rest: set<string>, claim: Option<Claim>)

  datatype Change = Idle | Restoring(now: int, candidates: Jobs, left: set<string>) | Swapping(candidates: Jobs)

  datatype Phase = Probing | Published | Cleared

  datatype Execution = Execution(monitor: string, phase: Phase)

  datatype Pool = Pool(running: set<string>, workers: nat, live: map<nat, Execution>, next: nat)

  datatype Event =
    | WasRestored(m: string, revision: Revision)
    | WasAdvanced(m: string, revision: Revision, at: int, starts: bool, slot: nat)
    | WasStarted(m: string, revision: Revision, at: int, entry: nat)
    | WasRefused(m: string, revision: Revision)

  datatype State = State(
    book: Book,             // survives a restart
    jobs: Jobs,
    tick: Option<Tick>,
    change: Change,
    booted: int,            // last configuration taken up since the start
    pool: Pool,
    log: seq<Event>)

  datatype Step =
    | BeginTick(now: int)
    | Pick(m: string)
    | Advance
    | Finish
    | EndTick
    | Publish(id: nat)
    | Clear(id: nat)
    | Release(id: nat)
    | BeginChange(config: int, assignments: Assignments, now: int)
    | RestoreOne(m: string, initialDue: int)
    | Remove
    | Swap
    | Restart

  function Initial(): State {
    State(Book(map[], map[], 0, map[], map[]), map[], None, Idle, 0, Pool({}, 0, map[], 0), [])
  }

  // ---------------------------------------------------------------- steps of a tick

  function Picked(s: State, capacity: nat, m: string): State
    requires s.tick.Some? && m in s.jobs
  {
    var t := s.tick.value;
    if s.jobs[m].nextDue > t.now then s.(tick := Some(t.(rest := t.rest - {m})))
    else s.(tick := Some(t.(claim := Some(Claim(m, s.jobs[m], m !in s.pool.running && s.pool.workers != capacity, None)))))
  }

  predicate Advancing(s: State) {
    && s.tick.Some? && s.tick.value.claim.Some? && s.tick.value.claim.value.entry.None?
    && s.tick.value.claim.value.job.interval > 0 && s.tick.value.claim.value.job.nextDue <= s.tick.value.now
  }

  predicate RowCarries(b: Book, m: string, revision: Revision) {
    m in b.rows && b.rows[m].revision == revision
  }

  function Pushed(s: State): State
    requires Advancing(s)
  {
    var t := s.tick.value;
    var c := t.claim.value;
    var k := Key(c.monitor, c.job.revision.config);
    if RowCarries(s.book, c.monitor, c.job.revision) then
      s.(book := AdvancedIn(s.book, c.monitor, c.job.revision, c.job.nextDue, c.job.interval, t.now, c.starts),
         jobs := s.jobs[c.monitor := c.job.(nextDue := CaughtUp(c.job.nextDue, c.job.interval, t.now))],
         tick := Some(t.(claim := Some(c.(entry := Some(|s.log|))))),
         log := s.log + [WasAdvanced(c.monitor, c.job.revision, c.job.nextDue, c.starts, if k in s.book.slots then |s.book.slots[k]| else 0)])
    else
      s.(tick := None, log := s.log + [WasRefused(c.monitor, c.job.revision)])
  }

  predicate Finishing(s: State) {
    s.tick.Some? && s.tick.value.claim.Some? && s.tick.value.claim.value.entry.Some?
  }

  function Spawned(p: Pool, m: string): Pool {
    Pool(p.running + {m}, p.workers + 1, p.live[p.next := Execution(m, Probing)], p.next + 1)
  }

  function Finished(s: State): State
    requires Finishing(s)
  {
    var t := s.tick.value;
    var c := t.claim.value;
    var s' := s.(tick := Some(t.(rest := t.rest - {c.monitor}, claim := None)));
    if c.starts
    then s'.(pool := Spawned(s.pool, c.monitor), log := s.log + [WasStarted(c.monitor, c.job.revision, c.job.nextDue, c.entry.value)])
    else s'
  }

  // ---------------------------------------------------------------- steps of a probe and of a change

  function Phased(p: Pool, id: nat, from: Phase, to: Phase): Pool {
    if id in p.live && p.live[id].phase == from then p.(live := p.live[id := p.live[id].(phase := to)]) else p
  }

  function Unmarked(p: Pool, id: nat): Pool {
    if id in p.live && p.live[id].phase == Published then Phased(p, id, Published, Cleared).(running := p.running - {p.live[id].monitor}) else p
  }

  function Freed(p: Pool, id: nat): Pool {
    if id in p.live && p.live[id].phase == Cleared && p.workers > 0 then p.(live := p.live - {id}, workers := p.workers - 1) else p
  }

  function Candidates(config: int, a: Assignments, now: int): Jobs {
    map m | m in a :: Job(Revision(a[m].monitorRevision, config), a[m].interval, now)
  }

  function Changing(s: State, config: int, a: Assignments, now: int): State {
    s.(book := Offered(s.book, config, a), change := Restoring(now, Candidates(config, a, now), a.Keys), booted := config)
  }

  predicate Restorable(s: State, m: string) {
    && s.change.Restoring? && m in s.change.left && m in s.change.candidates
    && s.book.latest in s.book.configs && m in s.book.configs[s.book.latest] && s.book.configs[s.book.latest][m].interval > 0
  }

  function RestoredOne(s: State, m: string, initialDue: int): State
    requires Restorable(s, m)
  {
    var book := RestoredIn(s.book, m, initialDue, s.change.now);
    var job := s.change.candidates[m].(nextDue := book.rows[m].nextDue);
    s.(book := book, change := s.change.(candidates := s.change.candidates[m := job], left := s.change.left - {m}),
       log := s.log + [WasRestored(m, book.rows[m].revision)])
  }

  /** A restart keeps the store and the record; everything else is gone. */
  function Restarted(s: State): State {
    s.(jobs := map[], tick := None, change := Idle, booted := 0, pool := Pool({}, 0, map[], s.pool.next))
  }

  /** A step that cannot be taken changes nothing. */
  function Next(s: State, capacity: nat, step: Step): State {
    match step
    case BeginTick(now) => if s.tick.None? then s.(tick := Some(Tick(now, s.jobs.Keys, None))) else s
    case Pick(m) => if s.tick.Some? && s.tick.value.claim.None? && m in s.tick.value.rest && m in s.jobs then Picked(s, capacity, m) else s
    case Advance => if Advancing(s) then Pushed(s) else s
    case Finish => if Finishing(s) then Finished(s) else s
    case EndTick => if s.tick.Some? && s.tick.value.claim.None? && s.tick.value.rest == {} then s.(tick := None) else s
    case Publish(id) => s.(pool := Phased(s.pool, id, Probing, Published))
    case Clear(id) => if s.tick.None? then s.(pool := Unmarked(s.pool, id)) else s
    case Release(id) => s.(pool := Freed(s.pool, id))
    case BeginChange(config, a, now) =>
      if s.change.Idle? && config > s.booted && Offers(s.book, config, a) then Changing(s, config, a, now) else s
    case RestoreOne(m, initialDue) => if Restorable(s, m) then RestoredOne(s, m, initialDue) else s
    case Remove =>
      if s.change.Restoring? && s.change.left == {} && s.book.latest in s.book.configs
      then s.(book := PrunedIn(s.book), change := Swapping(s.change.candidates)) else s
    case Swap => if s.change.Swapping? && s.tick.None? then s.(jobs := s.change.candidates, change := Idle) else s
    case Restart => Restarted(s)
  }

  function Run(capacity: nat, steps: seq<Step>): State {
    if steps == [] then Initial() else Next(Run(capacity, steps[..|steps| - 1]), capacity, steps[|steps| - 1])
  }

  // ---------------------------------------------------------------- jobs and stored cursors

  /** The job is one of its configuration, and its cursor is the stored one while the row is its own. */
  ghost predicate JobFits(b: Book, m: string, job: Job) {
    var k := Key(m, job.revision.config);
    && Tracked(b, k) && job.revision == RevisionOf(b, k) && job.interval == Interval(b, k)
    && (RowCarries(b, m, job.revision) ==> b.rows[m].nextDue == job.nextDue)
  }

  ghost predicate JobsFit(s: State) {
    && (forall m :: m in s.jobs ==> JobFits(s.book, m, s.jobs[m]) && s.jobs[m].revision.config <= s.booted)
    && (forall m :: m in s.jobs && s.change.Idle? ==> RowCarries(s.book, m, s.jobs[m].revision))
    && (forall m :: m in s.jobs && !s.change.Idle? ==> s.jobs[m].revision.config < s.book.latest)
    && s.booted <= s.book.latest
  }

  /** A candidate of the change under way; once restored, its cursor is the stored one. */
  ghost predicate CandidateFits(b: Book, m: string, job: Job, restored: bool)
    requires b.latest in b.configs
  {
    && m in b.configs[b.latest] && job.revision == Revision(b.configs[b.latest][m].monitorRevision, b.latest)
    && job.interval == b.configs[b.latest][m].interval
    && (restored ==> RowCarries(b, m, job.revision) && b.rows[m].nextDue == job.nextDue)
  }

  ghost predicate ChangeFits(s: State) {
    !s.change.Idle? ==>
      && s.book.latest in s.book.configs && s.booted == s.book.latest
      && s.change.candidates.Keys == s.book.configs[s.book.latest].Keys
      && forall m :: m in s.change.candidates ==>
           CandidateFits(s.book, m, s.change.candidates[m], s.change.Swapping? || m !in s.change.left)
  }

  ghost predicate ClaimFits(s: State) {
    s.tick.Some? ==>
      && s.tick.value.rest <= s.jobs.Keys
      && (s.tick.value.claim.Some? ==>
            var c := s.tick.value.claim.value;
            && c.monitor in s.jobs && c.job.revision == s.jobs[c.monitor].revision && c.job.interval == s.jobs[c.monitor].interval
            && c.job.nextDue <= s.tick.value.now && c.job.interval > 0
            && (c.entry.None? ==> c.job == s.jobs[c.monitor]))
  }

  ghost predicate Fits(s: State) {
    Good(s.book) && JobsFit(s) && ChangeFits(s) && ClaimFits(s)
  }

  lemma IntervalPositive(b: Book, k: Key)
    requires Good(b) && Tracked(b, k)
    ensures Interval(b, k) > 0
  {
    assert ValidAssignments(b.configs[k.config]);
  }

  lemma PickFits(s: State, capacity: nat, m: string)
    requires Fits(s) && s.tick.Some? && s.tick.value.claim.None? && m in s.tick.value.rest && m in s.jobs
    ensures Fits(Picked(s, capacity, m))
  {
    IntervalPositive(s.book, Key(m, s.jobs[m].revision.config));
  }

  lemma AdvanceKeepsJob(b: Book, m: string, job: Job, now: int, starts: bool, x: string, other: Job)
    requires job.interval > 0 && job.nextDue <= now && JobFits(b, m, job) && RowCarries(b, m, job.revision)
    requires x != m && JobFits(b, x, other)
    ensures JobFits(AdvancedIn(b, m, job.revision, job.nextDue, job.interval, now, starts), x, other)
  {
  }

  lemma AdvanceMovesJob(b: Book, m: string, job: Job, now: int, starts: bool)
    requires job.interval > 0 && job.nextDue <= now && JobFits(b, m, job) && RowCarries(b, m, job.revision)
    ensures JobFits(AdvancedIn(b, m, job.revision, job.nextDue, job.interval, now, starts), m,
                    job.(nextDue := CaughtUp(job.nextDue, job.interval, now)))
  {
  }

  lemma AdvanceKeepsCandidate(b: Book, m: string, job: Job, now: int, starts: bool, x: string, candidate: Job, restored: bool)
    requires job.interval > 0 && job.nextDue <= now && RowCarries(b, m, job.revision) && job.revision.config < b.latest
    requires b.latest in b.configs && CandidateFits(b, x, candidate, restored)
    ensures CandidateFits(AdvancedIn(b, m, job.revision, job.nextDue, job.interval, now, starts), x, candidate, restored)
  {
  }

  lemma AdvancedJobFits(b: Book, m: string, job: Job, now: int, starts: bool, jobs: Jobs, x: string)
    requires job.interval > 0 && job.nextDue <= now && JobFits(b, m, job) && RowCarries(b, m, job.revision)
    requires x in jobs && (x != m ==> JobFits(b, x, jobs[x]))
    ensures JobFits(AdvancedIn(b, m, job.revision, job.nextDue, job.interval, now, starts), x,
                    jobs[m := job.(nextDue := CaughtUp(job.nextDue, job.interval, now))][x])
  {
    if x == m {
      AdvanceMovesJob(b, m, job, now, starts);
    } else {
      AdvanceKeepsJob(b, m, job, now, starts, x, jobs[x]);
    }
  }

  lemma AdvanceKeepsCarrying(b: Book, m: string, job: Job, now: int, starts: bool, x: string, revision: Revision)
    requires job.interval > 0 && job.nextDue <= now
    ensures RowCarries(AdvancedIn(b, m, job.revision, job.nextDue, job.interval, now, starts), x, revision) <==> RowCarries(b, x, revision)
  {
  }

  lemma AdvanceJobsFit(s: State)
    requires JobsFit(s) && ClaimFits(s) && Advancing(s)
    requires RowCarries(s.book, s.tick.value.claim.value.monitor, s.tick.value.claim.value.job.revision)
    ensures JobsFit(Pushed(s))
  {
    var t := s.tick.value;
    var c := t.claim.value;
    forall m | m in s.jobs
      ensures JobFits(Pushed(s).book, m, Pushed(s).jobs[m])
      ensures RowCarries(Pushed(s).book, m, s.jobs[m].revision) <==> RowCarries(s.book, m, s.jobs[m].revision)
    {
      AdvancedJobFits(s.book, c.monitor, c.job, t.now, c.starts, s.jobs, m);
      AdvanceKeepsCarrying(s.book, c.monitor, c.job, t.now, c.starts, m, s.jobs[m].revision);
    }
  }

  lemma AdvanceChangeFits(s: State)
    requires Fits(s) && Advancing(s) && RowCarries(s.book, s.tick.value.claim.value.monitor, s.tick.value.claim.value.job.revision)
    ensures ChangeFits(Pushed(s))
  {
    var t := s.tick.value;
    var c := t.claim.value;
    if !s.change.Idle? {
      forall m | m in s.change.candidates
        ensures CandidateFits(Pushed(s).book, m, s.change.candidates[m], s.change.Swapping? || m !in s.change.left)
      {
        AdvanceKeepsCandidate(s.book, c.monitor, c.job, t.now, c.starts, m, s.change.candidates[m], s.change.Swapping? || m !in s.change.left);
      }
    }
  }

  lemma AdvanceFits(s: State)
    requires Fits(s) && Advancing(s)
    ensures Fits(Pushed(s)) && Grows(s.book, Pushed(s).book)
  {
    var t := s.tick.value;
    var c := t.claim.value;
    if RowCarries(s.book, c.monitor, c.job.revision) {
      assert JobFits(s.book, c.monitor, s.jobs[c.monitor]);
      AdvanceKeeps(s.book, c.monitor, c.job.revision, c.job.nextDue, c.job.interval, t.now, c.starts);
      AdvanceGrows(s.book, c.monitor, c.job.revision, c.job.nextDue, c.job.interval, t.now, c.starts);
      AdvanceJobsFit(s);
      AdvanceChangeFits(s);
    }
  }

  lemma BeginChangeFits(s: State, config: int, a: Assignments, now: int)
    requires Fits(s) && s.change.Idle? && config > s.booted && Offers(s.book, config, a)
    ensures Fits(Changing(s, config, a, now)) && Grows(s.book, Changing(s, config, a, now).book)
  {
    OfferKeeps(s.book, config, a);
    OfferGrows(s.book, config, a);
    var s' := Changing(s, config, a, now);
    forall m | m in s'.jobs ensures JobFits(s'.book, m, s'.jobs[m]) {
      assert JobFits(s.book, m, s.jobs[m]);
    }
  }

  lemma RestoreKeepsJob(b: Book, m: string, initialDue: int, now: int, x: string, job: Job)
    requires Good(b) && b.latest in b.configs && m in b.configs[b.latest] && b.configs[b.latest][m].interval > 0
    requires JobFits(b, x, job) && job.revision.config < b.latest
    ensures JobFits(RestoredIn(b, m, initialDue, now), x, job)
  {
  }

  lemma RestoreKeepsCandidate(b: Book, m: string, initialDue: int, now: int, x: string, job: Job, restored: bool)
    requires b.latest in b.configs && m in b.configs[b.latest] && b.configs[b.latest][m].interval > 0
    requires CandidateFits(b, x, job, restored)
    ensures x != m ==> CandidateFits(RestoredIn(b, m, initialDue, now), x, job, restored)
    ensures x == m ==> CandidateFits(RestoredIn(b, m, initialDue, now), x, job.(nextDue := RestoredIn(b, m, initialDue, now).rows[m].nextDue), true)
  {
  }

  lemma RestoreChangeFits(s: State, m: string, initialDue: int)
    requires Fits(s) && Restorable(s, m)
    ensures ChangeFits(RestoredOne(s, m, initialDue))
  {
    var s' := RestoredOne(s, m, initialDue);
    forall x | x in s'.change.candidates ensures CandidateFits(s'.book, x, s'.change.candidates[x], x !in s'.change.left) {
      RestoreKeepsCandidate(s.book, m, initialDue, s.change.now, x, s.change.candidates[x], x !in s.change.left);
    }
  }

  lemma RestoreJobsFit(s: State, m: string, initialDue: int)
    requires Fits(s) && Restorable(s, m)
    ensures JobsFit(RestoredOne(s, m, initialDue))
  {
    var s' := RestoredOne(s, m, initialDue);
    forall x | x in s'.jobs ensures JobFits(s'.book, x, s'.jobs[x]) {
      RestoreKeepsJob(s.book, m, initialDue, s.change.now, x, s.jobs[x]);
    }
  }

  lemma RestoreOneFits(s: State, m: string, initialDue: int)
    requires Fits(s) && Restorable(s, m)
    ensures Fits(RestoredOne(s, m, initialDue)) && Grows(s.book, RestoredOne(s, m, initialDue).book)
  {
    RestoreKeeps(s.book, m, initialDue, s.change.now);
    RestoreGrows(s.book, m, initialDue, s.change.now);
    RestoreChangeFits(s, m, initialDue);
    RestoreJobsFit(s, m, initialDue);
  }

  lemma RemoveFits(s: State)
    requires Fits(s) && s.change.Restoring? && s.change.left == {} && s.book.latest in s.book.configs
    ensures Fits(s.(book := PrunedIn(s.book), change := Swapping(s.change.candidates))) && Grows(s.book, PrunedIn(s.book))
  {
    PruneKeeps(s.book);
    var s' := s.(book := PrunedIn(s.book), change := Swapping(s.change.candidates));
    forall m | m in s'.jobs ensures JobFits(s'.book, m, s'.jobs[m]) {
      assert JobFits(s.book, m, s.jobs[m]);
    }
    forall m | m in s'.change.candidates ensures CandidateFits(s'.book, m, s'.change.candidates[m], true) {
      assert CandidateFits(s.book, m, s.change.candidates[m], true);
    }
  }

  lemma SwapFits(s: State)
    requires Fits(s) && s.change.Swapping? && s.tick.None?
    ensures Fits(s.(jobs := s.change.candidates, change := Idle))
  {
    var s' := s.(jobs := s.change.candidates, change := Idle);
    forall m | m in s'.jobs ensures JobFits(s'.book, m, s'.jobs[m]) && RowCarries(s'.book, m, s'.jobs[m].revision) {
      assert CandidateFits(s.book, m, s.change.candidates[m], true);
      assert RowAgrees(s.book, Key(m, s.book.rows[m].revision.config), s.book.rows[m]);
    }
  }

  /** A step that leaves the store, the jobs and the change alone. */
  lemma AsideFits(s: State, s': State)
    requires Fits(s) && s'.book == s.book && s'.jobs == s.jobs && s'.change == s.change && s'.booted == s.booted
    requires ClaimFits(s')
    ensures Fits(s') && Grows(s.book, s'.book)
  {
  }

  lemma TickStepFits(s: State, capacity: nat, step: Step)
    requires Fits(s) && (step.BeginTick? || step.Pick? || step.Advance? || step.Finish? || step.EndTick?)
    ensures Fits(Next(s, capacity, step)) && Grows(s.book, Next(s, capacity, step).book)
  {
    match step
    case Pick(m) =>
      if s.tick.Some? && s.tick.value.claim.None? && m in s.tick.value.rest && m in s.jobs {
        PickFits(s, capacity, m);
      }
    case Advance =>
      if Advancing(s) {
        AdvanceFits(s);
      }
    case BeginTick(now) => BeginTickFits(s, now);
    case EndTick => TickMovesFit(s, None);
    case Finish =>
      if Finishing(s) {
        FinishFits(s);
      }
  }

  lemma BeginTickFits(s: State, now: int)
    requires Fits(s)
    ensures Fits(s.(tick := Some(Tick(now, s.jobs.Keys, None)))) && Grows(s.book, s.book)
  {
    TickMovesFit(s, Some(Tick(now, s.jobs.Keys, None)));
  }

  lemma TickMovesFit(s: State, tick: Option<Tick>)
    requires Fits(s) && ClaimFits(s.(tick := tick))
    ensures Fits(s.(tick := tick)) && Grows(s.book, s.book)
  {
    AsideFits(s, s.(tick := tick));
  }

  lemma FinishFits(s: State)
    requires Fits(s) && Finishing(s)
    ensures Fits(Finished(s)) && Grows(s.book, Finished(s).book)
  {
    AsideFits(s, Finished(s));
  }

  lemma ChangeStepFits(s: State, capacity: nat, step: Step)
    requires Fits(s) && (step.BeginChange? || step.RestoreOne? || step.Remove? || step.Swap? || step.Restart?)
    ensures Fits(Next(s, capacity, step)) && Grows(s.book, Next(s, capacity, step).book)
  {
    match step
    case BeginChange(config, a, now) =>
      if s.change.Idle? && config > s.booted && Offers(s.book, config, a) {
        BeginChangeFits(s, config, a, now);
      }
    case RestoreOne(m, initialDue) =>
      if Restorable(s, m) {
        RestoreOneFits(s, m, initialDue);
      }
    case Remove =>
      if s.change.Restoring? && s.change.left == {} && s.book.latest in s.book.configs {
        RemoveFits(s);
      }
    case Swap =>
      if s.change.Swapping? && s.tick.None? {
        SwapFits(s);
      }
    case Restart => RestartFits(s);
  }

  lemma RestartFits(s: State)
    requires Fits(s)
    ensures Fits(Restarted(s)) && Grows(s.book, Restarted(s).book)
  {
  }

  lemma StepFits(s: State, capacity: nat, step: Step)
    requires Fits(s)
    ensures Fits(Next(s, capacity, step)) && Grows(s.book, Next(s, capacity, step).book)
  {
    if step.BeginTick? || step.Pick? || step.Advance? || step.Finish? || step.EndTick? {
      TickStepFits(s, capacity, step);
    } else if step.Publish? || step.Clear? || step.Release? {
      AsideFits(s, Next(s, capacity, step));
    } else {
      ChangeStepFits(s, capacity, step);
    }
  }
}
