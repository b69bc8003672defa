/**
The durable scheduler: the stored cursor of each monitor, restoring it after a restart, and one tick
over the jobs.

Times and intervals are nanoseconds.  The jobs of a tick are visited in any order.
*/
module Scheduler {
  import opened Options

  const SECOND := 1_000_000_000
  const MINIMUM_INTERVAL := 5 * SECOND
  const MAXIMUM_INTERVAL := 24 * 3600 * SECOND
  const MINIMUM_TIMEOUT := SECOND / 10

  /** The configuration a cursor or a job belongs to. */
  datatype Revision = Revision(monitor: int, config: int)

  datatype Row = Row(revision: Revision, nextDue: int, missed: nat)

  type Rows = map<string, Row>

  // ---------------------------------------------------------------- the grid

  /** How many grid slots starting at `due` are at or before `now`. */
  function Elapsed(due: int, interval: int, now: int): nat
    requires interval > 0
  {
    if due > now then 0 else (now - due) / interval + 1
  }

  /** The first slot after `now`. */
  function CaughtUp(due: int, interval: int, now: int): int
    requires interval > 0
  {
    due + interval * Elapsed(due, interval, now)
  }

  lemma ElapsedStep(due: int, interval: int, now: int)
    requires interval > 0 && due <= now
    ensures Elapsed(due, interval, now) == Elapsed(due + interval, interval, now) + 1
    ensures CaughtUp(due, interval, now) == CaughtUp(due + interval, interval, now)
  {
    if due + interval <= now {
      DivideStep(now - due, interval);
    } else {
      assert (now - due) / interval == 0;
    }
  }

  lemma DivideStep(a: int, b: int)
    requires b > 0 && a >= b
    ensures a / b == (a - b) / b + 1
  {
    var q, r := (a - b) / b, (a - b) % b;
    assert a == b * (q + 1) + r;
    UniqueQuotient(a, b, q + 1, r);
  }

  lemma UniqueQuotient(a: int, b: int, q: int, r: int)
    requires b > 0 && a == b * q + r && 0 <= r < b
    ensures a / b == q
  {
    var d := a / b - q;
    assert a == b * (a / b) + a % b;
    assert b * d == r - a % b;
    assert d >= 1 ==> b * d >= b;
    assert d <= -1 ==> b * d <= -b;
  }

  /** The closed form is what it says: the only grid point in the window just after `now`. */
  lemma {:induction false} CaughtUpIsNext(due: int, interval: int, now: int)
    requires interval > 0
    ensures CaughtUp(due, interval, now) > now
    ensures due <= now ==> CaughtUp(due, interval, now) <= now + interval
    ensures forall i: nat :: due + interval * i <= now <==> i < Elapsed(due, interval, now)
  {
    var n := Elapsed(due, interval, now);
    if due <= now {
      var q, r := (now - due) / interval, (now - due) % interval;
      assert now - due == interval * q + r;
      assert interval * n == interval * q + interval;
    }
    forall i: nat ensures due + interval * i <= now <==> i < n {
      if i < n {
        assert interval * i <= interval * (n - 1);
      } else {
        assert interval * i >= interval * n;
      }
    }
  }

  /** Both catch-up loops: step by whole intervals until after `now`. */
  method CatchUp(due: int, interval: int, now: int) returns (next: int, slots: nat)
    requires interval > 0
    ensures next == CaughtUp(due, interval, now) && slots == Elapsed(due, interval, now)
  {
    next, slots := due, 0;
    while next <= now
      invariant slots + Elapsed(next, interval, now) == Elapsed(due, interval, now)
      invariant CaughtUp(next, interval, now) == CaughtUp(due, interval, now)
      decreases now - next
    {
      ElapsedStep(next, interval, now);
      next, slots := next + interval, slots + 1;
    }
  }

  /** First due times are spread over the first tenth of the interval. */
  function Jitter(digest: nat, interval: int): (j: int)
    requires interval >= 0
    ensures 0 <= j <= interval / 10
  {
    if interval / 10 <= 0 then 0 else digest % (interval / 10)
  }

  /** Two monitors start together exactly when their digests agree modulo a tenth of the interval. */
  lemma JitterSpreads(a: nat, b: nat, interval: int)
    requires interval >= 10
    ensures Jitter(a, interval) == Jitter(b, interval) <==> a % (interval / 10) == b % (interval / 10)
    ensures a < interval / 10 ==> Jitter(a, interval) == a
  {
  }

  // ---------------------------------------------------------------- the stored cursors

  function Restored(rows: Rows, m: string, revision: Revision, initialDue: int, interval: int, now: int): Row
    requires interval > 0
  {
    if m in rows && rows[m].revision == revision
    then Row(revision, CaughtUp(rows[m].nextDue, interval, now), rows[m].missed + Elapsed(rows[m].nextDue, interval, now))
    else Row(revision, initialDue, 0)
  }

  function Advanced(rows: Rows, m: string, revision: Revision, nextDue: int, missed: nat): Option<Rows> {
    if m in rows && rows[m].revision == revision
    then Some(rows[m := Row(revision, nextDue, rows[m].missed + missed)])
    else None
  }

  function Kept(rows: Rows, ids: set<string>): Rows {
    map m | m in rows && m in ids :: rows[m]
  }

  datatype ScheduleError = InvalidIdentity | ScheduleChanged

  class ScheduleStore {
    var rows: Rows

    constructor ()
      ensures rows == map[]
    {
      rows := map[];
    }

    method RestoreSchedule(m: string, revision: Revision, initialDue: int, interval: int, now: int)
      returns (r: Result<int, ScheduleError>)
      modifies this
      ensures if m == "" || revision.monitor < 1 || revision.config < 1 || interval <= 0
              then r == Err(InvalidIdentity) && rows == old(rows)
              else
                var row := Restored(old(rows), m, revision, initialDue, interval, now);
                r == Ok(row.nextDue) && rows == old(rows)[m := row]
    {
      if m == "" || revision.monitor < 1 || revision.config < 1 || interval <= 0 {
        return Err(InvalidIdentity);
      }
      var nextDue, missed := initialDue, 0;
      if m in rows && rows[m].revision == revision {
        var due, slots := CatchUp(rows[m].nextDue, interval, now);
        nextDue, missed := due, rows[m].missed + slots;
      }
      rows := rows[m := Row(revision, nextDue, missed)];
      return Ok(nextDue);
    }

    method AdvanceSchedule(m: string, revision: Revision, nextDue: int, missedRuns: nat) returns (r: Result<(), ScheduleError>)
      modifies this
      ensures match Advanced(old(rows), m, revision, nextDue, missedRuns)
              case Some(after) => r == Ok(()) && rows == after
              case None => r == Err(ScheduleChanged) && rows == old(rows)
    {
      if m !in rows || rows[m].revision != revision {
        return Err(ScheduleChanged);
      }
      rows := rows[m := Row(revision, nextDue, rows[m].missed + missedRuns)];
      return Ok(());
    }

    method RemoveSchedulesExcept(ids: set<string>)
      modifies this
      ensures rows == Kept(old(rows), ids)
    {
      rows := map m | m in rows && m in ids :: rows[m];
    }
  }

  // ---------------------------------------------------------------- one tick

  datatype Job = Job(revision: Revision, interval: int, nextDue: int)

  type Jobs = map<string, Job>

  datatype MissReason = Overlap | Capacity

  datatype MissedRun = MissedRun(monitor: string, scheduledAt: int, reason: MissReason)

  ghost predicate ValidJobs(jobs: Jobs) {
    forall m :: m in jobs ==> jobs[m].interval > 0
  }

  /** The stored cursor may still be moved by the job: it carries the job's revisions. */
  predicate Holds(jobs: Jobs, rows: Rows, m: string)
    requires m in jobs
  {
    m in rows && rows[m].revision == jobs[m].revision
  }

  /** What one tick does to the job and the stored cursor of a due monitor. */
  ghost predicate Moved(jobs: Jobs, rows: Rows, jobs': Jobs, rows': Rows, started: bool, m: string, now: int)
    requires m in jobs && jobs[m].interval > 0
  {
    var job := jobs[m];
    var next := CaughtUp(job.nextDue, job.interval, now);
    var slots := Elapsed(job.nextDue, job.interval, now);
    && Holds(jobs, rows, m)
    && m in jobs' && jobs'[m] == job.(nextDue := next)
    && m in rows' && rows'[m].revision == job.revision && rows'[m].nextDue == next
    && rows'[m].missed == rows[m].missed + slots - (if started then 1 else 0)
  }

  ghost predicate SameElsewhere<V(!new)>(a: map<string, V>, b: map<string, V>, m: string) {
    forall k :: k != m ==> (k in a <==> k in b) && (k in a && k in b ==> a[k] == b[k])
  }

  /** The slots a tick reports as missed for one monitor. */
  ghost predicate Reports(missed: seq<MissedRun>, m: string, job: Job, reason: Option<MissReason>, now: int)
    requires job.interval > 0
  {
    var skipped := Elapsed(job.nextDue, job.interval, now) - 1;
    && |missed| == skipped + (if reason.Some? then 1 else 0)
    && (forall i :: 0 <= i < skipped ==> missed[i] == MissedRun(m, job.nextDue + job.interval * (i + 1), Capacity))
    && (reason.Some? && skipped >= 0 ==> missed[skipped] == MissedRun(m, job.nextDue, reason.value))
  }

  function Flat(blocks: seq<seq<MissedRun>>): seq<MissedRun> {
    if blocks == [] then [] else Flat(blocks[..|blocks| - 1]) + blocks[|blocks| - 1]
  }

  /** What a tick shows of the scheduler: its jobs, its running monitors, its pool and the stored cursors. */
  datatype View = View(jobs: Jobs, rows: Rows, running: set<string>, workers: nat)

  /** A tick that went from `a` to `b` is finished with monitor `m`. */
  ghost predicate Settled(a: View, b: View, capacity: nat, now: int, started: set<string>, m: string)
    requires m in a.jobs && a.jobs[m].interval > 0
  {
    if a.jobs[m].nextDue <= now
    then Moved(a.jobs, a.rows, b.jobs, b.rows, m in started, m, now)
         && (m in started || m in a.running || b.workers == capacity)
    else m !in started && m in b.jobs && b.jobs[m] == a.jobs[m]
  }

  ghost predicate Untouched(a: View, b: View, m: string) {
    && m in a.jobs && m in b.jobs && a.jobs[m] == b.jobs[m]
    && (m in a.rows <==> m in b.rows) && (m in a.rows && m in b.rows ==> a.rows[m] == b.rows[m])
  }

  ghost predicate Counted(a: View, b: View, capacity: nat, started: set<string>) {
    && started <= a.jobs.Keys && started !! a.running && b.running == a.running + started
    && b.workers == a.workers + |started| <= capacity && b.jobs.Keys == a.jobs.Keys
  }

  /** One visit: monitor `m` moved, the others left as they were. */
  ghost predicate Visited(b: View, c: View, capacity: nat, now: int, m: string)
    requires m in b.jobs && b.jobs[m].interval > 0
  {
    var starts := m !in b.running && b.workers != capacity;
    && Moved(b.jobs, b.rows, c.jobs, c.rows, starts, m, now)
    && SameElsewhere(b.jobs, c.jobs, m) && SameElsewhere(b.rows, c.rows, m)
    && c.running == (if starts then b.running + {m} else b.running)
    && c.workers == (if starts then b.workers + 1 else b.workers)
  }

  lemma VisitCounts(a: View, b: View, c: View, capacity: nat, now: int, started: set<string>, m: string)
    requires m in b.jobs && b.jobs[m].interval > 0 && m !in started
    requires Counted(a, b, capacity, started) && Visited(b, c, capacity, now, m)
    ensures Counted(a, c, capacity, if m !in b.running && b.workers != capacity then started + {m} else started)
  {
    assert c.jobs.Keys == b.jobs.Keys by {
      forall k ensures k in c.jobs <==> k in b.jobs {
        if k != m {
        }
      }
    }
  }

  lemma VisitSettles(a: View, b: View, c: View, capacity: nat, now: int, started: set<string>, m: string)
    requires Untouched(a, b, m) && a.jobs[m].interval > 0 && a.jobs[m].nextDue <= now && m !in started
    requires Counted(a, b, capacity, started) && Visited(b, c, capacity, now, m)
    ensures Settled(a, c, capacity, now, if m !in b.running && b.workers != capacity then started + {m} else started, m)
  {
  }

  lemma VisitKeeps(a: View, b: View, c: View, capacity: nat, now: int, started: set<string>, m: string, k: string)
    requires m in b.jobs && b.jobs[m].interval > 0 && k != m && k in a.jobs && a.jobs[k].interval > 0
    requires Visited(b, c, capacity, now, m) && Counted(a, b, capacity, started)
    ensures Untouched(a, b, k) ==> Untouched(a, c, k)
    ensures Settled(a, b, capacity, now, started, k) ==>
              Settled(a, c, capacity, now, if m !in b.running && b.workers != capacity then started + {m} else started, k)
  {
  }

  /** A tick has settled every monitor but those in `rest`. */
  ghost predicate Progress(a: View, b: View, capacity: nat, now: int, started: set<string>, rest: set<string>) {
    && ValidJobs(a.jobs) && rest <= a.jobs.Keys && started !! rest
    && Counted(a, b, capacity, started)
    && (forall m :: m in rest ==> Untouched(a, b, m))
    && (forall m :: m in a.jobs && m !in rest ==> Settled(a, b, capacity, now, started, m))
  }

  /** Why a due run was not started: its last run is still going, or the pool is full. */
  function WhyMissed(a: View, started: set<string>, m: string): Option<MissReason> {
    if m in started then None else if m in a.running then Some(Overlap) else Some(Capacity)
  }

  /** The report has one block for each due monitor outside `rest`, in the order in which they were visited. */
  ghost predicate Told(a: View, now: int, started: set<string>, rest: set<string>, order: seq<string>,
                       blocks: seq<seq<MissedRun>>, missed: seq<MissedRun>) {
    && |order| == |blocks| && missed == Flat(blocks)
    && (forall i, j :: 0 <= i < j < |order| ==> order[i] != order[j])
    && (forall m :: m in order <==> m in a.jobs && m !in rest && a.jobs[m].nextDue <= now)
    && (forall i :: 0 <= i < |order| ==> ToldAt(a, now, started, order[i], blocks[i]))
  }

  ghost predicate ToldAt(a: View, now: int, started: set<string>, m: string, block: seq<MissedRun>) {
    m in a.jobs && a.jobs[m].interval > 0 && Reports(block, m, a.jobs[m], WhyMissed(a, started, m), now)
  }

  lemma SkipTold(a: View, now: int, started: set<string>, rest: set<string>, order: seq<string>,
                 blocks: seq<seq<MissedRun>>, missed: seq<MissedRun>, m: string)
    requires Told(a, now, started, rest, order, blocks, missed) && m in a.jobs && a.jobs[m].nextDue > now
    ensures Told(a, now, started, rest - {m}, order, blocks, missed)
  {
  }

  lemma VisitTold(a: View, now: int, started: set<string>, rest: set<string>, order: seq<string>,
                  blocks: seq<seq<MissedRun>>, missed: seq<MissedRun>, m: string, block: seq<MissedRun>, started': set<string>)
    requires Told(a, now, started, rest, order, blocks, missed) && m in rest && m in a.jobs && a.jobs[m].nextDue <= now
    requires started' == started || started' == started + {m}
    requires ToldAt(a, now, started', m, block)
    ensures Told(a, now, started', rest - {m}, order + [m], blocks + [block], missed + block)
  {
    var order', blocks' := order + [m], blocks + [block];
    assert blocks'[..|blocks|] == blocks;
    forall i | 0 <= i < |order'| ensures ToldAt(a, now, started', order'[i], blocks'[i]) {
      if i < |order| {
        assert order[i] in order && order[i] != m;
        assert ToldAt(a, now, started, order[i], blocks[i]);
      }
    }
    forall k ensures k in order' <==> k in a.jobs && k !in rest - {m} && a.jobs[k].nextDue <= now {
      assert k in order' <==> k in order || k == m;
    }
  }

  /** The reason a visit finds is the one the whole tick gives. */
  lemma VisitReports(a: View, b: View, capacity: nat, now: int, started: set<string>, rest: set<string>, m: string, block: seq<MissedRun>)
    requires Progress(a, b, capacity, now, started, rest) && m in rest && m in b.jobs && b.jobs[m].interval > 0
    requires Reports(block, m, b.jobs[m], if m in b.running then Some(Overlap) else if b.workers == capacity then Some(Capacity) else None, now)
    ensures ToldAt(a, now, if m !in b.running && b.workers != capacity then started + {m} else started, m, block)
  {
    assert Untouched(a, b, m);
  }

  lemma SkipProgress(a: View, b: View, capacity: nat, now: int, started: set<string>, rest: set<string>, m: string)
    requires Progress(a, b, capacity, now, started, rest) && m in rest
    ensures m in b.jobs && b.jobs[m].interval > 0
    ensures b.jobs[m].nextDue > now ==> Progress(a, b, capacity, now, started, rest - {m})
    ensures Holds(a.jobs, a.rows, m) == Holds(b.jobs, b.rows, m) && a.jobs[m] == b.jobs[m]
  {
    assert Untouched(a, b, m);
  }

  lemma VisitProgress(a: View, b: View, c: View, capacity: nat, now: int, started: set<string>, rest: set<string>, m: string)
    requires Progress(a, b, capacity, now, started, rest) && m in rest
    requires m in b.jobs && b.jobs[m].interval > 0 && b.jobs[m].nextDue <= now && Visited(b, c, capacity, now, m)
    ensures Progress(a, c, capacity, now, if m !in b.running && b.workers != capacity then started + {m} else started, rest - {m})
  {
    assert Untouched(a, b, m);
    VisitCounts(a, b, c, capacity, now, started, m);
    VisitSettles(a, b, c, capacity, now, started, m);
    forall k | k in a.jobs && k != m
      ensures Untouched(a, b, k) ==> Untouched(a, c, k)
      ensures Settled(a, b, capacity, now, started, k) ==>
                Settled(a, c, capacity, now, if m !in b.running && b.workers != capacity then started + {m} else started, k)
    {
      VisitKeeps(a, b, c, capacity, now, started, m, k);
    }
  }

  ghost predicate AllHold(v: View, now: int) {
    forall m :: m in v.jobs && v.jobs[m].nextDue <= now ==> Holds(v.jobs, v.rows, m)
  }

  /** A finished tick is one whose every due job could still move its stored cursor. */
  lemma SettledHolds(a: View, b: View, capacity: nat, now: int, started: set<string>)
    requires Progress(a, b, capacity, now, started, {})
    ensures AllHold(a, now)
  {
    forall m | m in a.jobs && a.jobs[m].nextDue <= now ensures Holds(a.jobs, a.rows, m) {
      assert Settled(a, b, capacity, now, started, m);
    }
  }

  // ---------------------------------------------------------------- taking up a configuration

  /** An assignment as the configuration gives it; `accepted` says that its probe accepts its settings. */
  datatype Given = Given(monitor: string, revision: Revision, targetId: string, targetAddress: string, interval: int, timeout: int, accepted: bool)

  predicate Sound(g: Given) {
    && g.monitor != "" && g.revision.monitor >= 1 && g.revision.config >= 1 && g.targetId != "" && g.targetAddress != ""
    && MINIMUM_INTERVAL <= g.interval <= MAXIMUM_INTERVAL && MINIMUM_TIMEOUT <= g.timeout < g.interval && g.accepted
  }

  ghost predicate AllSound(given: seq<Given>) {
    && (forall i :: 0 <= i < |given| ==> Sound(given[i]))
    && (forall i, j :: 0 <= i < j < |given| ==> given[i].monitor != given[j].monitor)
  }

  function NewJob(g: Given, now: int, digest: string -> nat): Job
    requires Sound(g)
  {
    Job(g.revision, g.interval, now + Jitter(digest(g.monitor), g.interval))
  }

  /** One new job for each assignment, and no others. */
  ghost predicate JobsOf(given: seq<Given>, jobs: Jobs, now: int, digest: string -> nat)
    requires AllSound(given)
  {
    && (forall i :: 0 <= i < |given| ==> given[i].monitor in jobs && jobs[given[i].monitor] == NewJob(given[i], now, digest))
    && (forall m :: m in jobs ==> exists i :: 0 <= i < |given| && given[i].monitor == m)
  }

  method Validated(given: seq<Given>, now: int, digest: string -> nat) returns (r: Option<Jobs>)
    ensures r.Some? <==> AllSound(given)
    ensures r.Some? ==> JobsOf(given, r.value, now, digest)
  {
    var jobs: Jobs := map[];
    for i := 0 to |given|
      invariant AllSound(given[..i]) && JobsOf(given[..i], jobs, now, digest)
    {
      var g := given[i];
      if g.monitor == "" || g.revision.monitor < 1 || g.revision.config < 1 || g.targetId == "" || g.targetAddress == "" {
        return None;
      }
      if g.interval < MINIMUM_INTERVAL || g.interval > MAXIMUM_INTERVAL || g.timeout < MINIMUM_TIMEOUT || g.timeout >= g.interval {
        return None;
      }
      if !g.accepted {
        return None;
      }
      if given[i].monitor in jobs {
        AssignedTwice(given, i, jobs, now, digest);
        return None;
      }
      assert given[..i + 1] == given[..i] + [given[i]];
      OneMoreJob(given[..i], given[i], jobs, now, digest);
      jobs := jobs[g.monitor := Job(g.revision, g.interval, now + Jitter(digest(g.monitor), g.interval))];
    }
    assert given[..|given|] == given;
    return Some(jobs);
  }

  lemma AssignedTwice(given: seq<Given>, i: nat, jobs: Jobs, now: int, digest: string -> nat)
    requires i < |given| && AllSound(given[..i]) && JobsOf(given[..i], jobs, now, digest) && given[i].monitor in jobs
    ensures !AllSound(given)
  {
    var j :| 0 <= j < i && given[..i][j].monitor == given[i].monitor;
    assert given[j].monitor == given[i].monitor;
  }

  lemma OneMoreSound(given: seq<Given>, g: Given, jobs: Jobs, now: int, digest: string -> nat)
    requires Sound(g) && g.monitor !in jobs && AllSound(given) && JobsOf(given, jobs, now, digest)
    ensures AllSound(given + [g])
  {
    var t := given + [g];
    forall i, j | 0 <= i < j < |t| ensures t[i].monitor != t[j].monitor {
      assert given[i].monitor in jobs;
    }
  }

  lemma OneMoreJob(given: seq<Given>, g: Given, jobs: Jobs, now: int, digest: string -> nat)
    requires Sound(g) && g.monitor !in jobs && AllSound(given) && JobsOf(given, jobs, now, digest)
    ensures AllSound(given + [g]) && JobsOf(given + [g], jobs[g.monitor := NewJob(g, now, digest)], now, digest)
  {
    OneMoreSound(given, g, jobs, now, digest);
    var t, r := given + [g], jobs[g.monitor := NewJob(g, now, digest)];
    forall m | m in r ensures exists k :: 0 <= k < |t| && t[k].monitor == m {
      if m == g.monitor {
        assert t[|given|].monitor == m;
      } else {
        var k :| 0 <= k < |given| && given[k].monitor == m;
        assert t[k].monitor == m;
      }
    }
    forall i | 0 <= i < |t| ensures t[i].monitor in r && r[t[i].monitor] == NewJob(t[i], now, digest) {
      if i < |given| {
        assert given[i].monitor in jobs;
      }
    }
  }

  predicate RestorableJob(m: string, job: Job) {
    m != "" && job.interval > 0 && job.revision.monitor >= 1 && job.revision.config >= 1
  }

  lemma JobsAreSound(given: seq<Given>, jobs: Jobs, now: int, digest: string -> nat, m: string)
    requires AllSound(given) && JobsOf(given, jobs, now, digest) && m in jobs
    ensures RestorableJob(m, jobs[m])
  {
    var i :| 0 <= i < |given| && given[i].monitor == m;
    assert jobs[m] == NewJob(given[i], now, digest);
  }

  /** The cursor of `m` is restored, and its job stands at it. */
  ghost predicate RestoredAt(candidates: Jobs, before: Rows, restored: Jobs, rows: Rows, now: int, m: string)
    requires m in candidates && candidates[m].interval > 0
  {
    && m in rows && m in restored
    && rows[m] == Restored(before, m, candidates[m].revision, candidates[m].nextDue, candidates[m].interval, now)
    && restored[m] == candidates[m].(nextDue := rows[m].nextDue)
  }

  ghost predicate RestoredSoFar(candidates: Jobs, before: Rows, restored: Jobs, rows: Rows, now: int, rest: set<string>) {
    && (forall m :: m in candidates ==> RestorableJob(m, candidates[m]))
    && rest <= candidates.Keys && restored.Keys == candidates.Keys - rest
    && (forall m :: m in rest ==> (m in rows <==> m in before) && (m in rows && m in before ==> rows[m] == before[m]))
    && (forall m :: m in restored ==> RestoredAt(candidates, before, restored, rows, now, m))
  }

  lemma RestoredStep(candidates: Jobs, before: Rows, restored: Jobs, rows: Rows, now: int, rest: set<string>, m: string)
    requires RestoredSoFar(candidates, before, restored, rows, now, rest) && m in rest
    ensures var row := Restored(rows, m, candidates[m].revision, candidates[m].nextDue, candidates[m].interval, now);
            RestoredSoFar(candidates, before, restored[m := candidates[m].(nextDue := row.nextDue)], rows[m := row], now, rest - {m})
  {
    var row := Restored(rows, m, candidates[m].revision, candidates[m].nextDue, candidates[m].interval, now);
    var restored', rows' := restored[m := candidates[m].(nextDue := row.nextDue)], rows[m := row];
    forall k | k in restored' ensures RestoredAt(candidates, before, restored', rows', now, k) {
      if k != m {
        assert RestoredAt(candidates, before, restored, rows, now, k);
      }
    }
  }

  /** The stored cursors and the jobs after a configuration is taken up. */
  ghost predicate TakenUp(candidates: Jobs, before: Rows, jobs: Jobs, rows: Rows, now: int)
    requires ValidJobs(candidates)
  {
    jobs.Keys == candidates.Keys == rows.Keys && forall m :: m in candidates ==> RestoredAt(candidates, before, jobs, rows, now, m)
  }

  class Ticker {
    const capacity: nat
    var jobs: Jobs
    var running: set<string>
    var workers: nat

    constructor (maximumConcurrent: nat)
      requires maximumConcurrent >= 1
      ensures capacity == maximumConcurrent && jobs == map[] && running == {} && workers == 0
    {
      capacity := maximumConcurrent;
      jobs, running, workers := map[], {}, 0;
    }

    /**
    Take up a configuration.  It is refused, and nothing changes, unless every assignment is sound and no
    monitor is assigned twice; then each job stands at its stored cursor, restored and caught up if it was
    of the same revisions, and no other cursor is left.
    */
    method Reconcile(store: ScheduleStore, given: seq<Given>, now: int, digest: string -> nat)
      returns (ok: bool, ghost candidates: Jobs)
      modifies this`jobs, store
      ensures ok <==> AllSound(given)
      ensures !ok ==> jobs == old(jobs) && store.rows == old(store.rows)
      ensures ok ==> JobsOf(given, candidates, now, digest) && ValidJobs(candidates)
      ensures ok ==> TakenUp(candidates, old(store.rows), jobs, store.rows, now)
    {
      candidates := map[];
      var validated := Validated(given, now, digest);
      if validated.None? {
        return false, map[];
      }
      candidates := validated.value;
      forall m | m in validated.value ensures RestorableJob(m, validated.value[m]) {
        JobsAreSound(given, validated.value, now, digest, m);
      }
      var restored := RestoreAll(store, validated.value, now);
      store.RemoveSchedulesExcept(restored.Keys);
      jobs := restored;
      ok := true;
    }

    method RestoreAll(store: ScheduleStore, candidates: Jobs, now: int) returns (restored: Jobs)
      requires forall m :: m in candidates ==> RestorableJob(m, candidates[m])
      modifies store
      ensures RestoredSoFar(candidates, old(store.rows), restored, store.rows, now, {})
    {
      restored := map[];
      var rest := candidates.Keys;
      while rest != {}
        invariant RestoredSoFar(candidates, old(store.rows), restored, store.rows, now, rest)
        decreases |rest|
      {
        var m :| m in rest;
        RestoredStep(candidates, old(store.rows), restored, store.rows, now, rest, m);
        var job := candidates[m];
        var due := store.RestoreSchedule(m, job.revision, job.nextDue, job.interval, now);
        restored := restored[m := job.(nextDue := due.value)];
        rest := rest - {m};
      }
    }

    /** Why a due run of `m` would not start now. */
    function Reason(m: string): Option<MissReason>
      reads this
    {
      if m in running then Some(Overlap) else if workers == capacity then Some(Capacity) else None
    }

    ghost function Seen(store: ScheduleStore): View
      reads this, store
    {
      View(jobs, store.rows, running, workers)
    }

    method Visit(store: ScheduleStore, m: string, now: int) returns (ok: bool, missed: seq<MissedRun>)
      requires m in jobs && jobs[m].interval > 0 && jobs[m].nextDue <= now && workers <= capacity
      modifies this, store
      ensures ok == old(Holds(jobs, store.rows, m))
      ensures if ok then Visited(old(Seen(store)), Seen(store), capacity, now, m) else Seen(store) == old(Seen(store))
      ensures ok ==> Reports(missed, m, old(jobs)[m], old(Reason(m)), now)
    {
      var current := jobs[m];
      var scheduledAt := current.nextDue;
      ElapsedStep(scheduledAt, current.interval, now);
      var nextDue, missedCount := CatchUp(scheduledAt + current.interval, current.interval, now);
      missed := SkippedSlots(m, scheduledAt, current.interval, missedCount);
      var reason := Reason(m);
      var advanced := store.AdvanceSchedule(m, current.revision, nextDue, if reason.Some? then missedCount + 1 else missedCount);
      if advanced.Err? {
        return false, missed;
      }
      jobs := jobs[m := current.(nextDue := nextDue)];
      if reason.Some? {
        missed := missed + [MissedRun(m, scheduledAt, reason.value)];
        return true, missed;
      }
      workers, running := workers + 1, running + {m};
      return true, missed;
    }

    /**
    A tick completes exactly when the stored cursor of every due job still carries the job's revisions.
    Then every due job stands at its next slot after `now`, each started at most once, and a due job went
    unstarted only because its last run is still going or the pool is full.  The report has exactly the slots
    each due job skipped, and the one it did not start, with the reason.
    */
    method Tick(store: ScheduleStore, now: int)
      returns (ok: bool, started: set<string>, missed: seq<MissedRun>, ghost order: seq<string>, ghost blocks: seq<seq<MissedRun>>)
      requires ValidJobs(jobs) && workers <= capacity
      modifies this, store
      ensures ok <==> AllHold(old(Seen(store)), now)
      ensures Counted(old(Seen(store)), Seen(store), capacity, started)
      ensures ok ==> Progress(old(Seen(store)), Seen(store), capacity, now, started, {})
      ensures ok ==> Told(old(Seen(store)), now, started, {}, order, blocks, missed)
    {
      ghost var a := Seen(store);
      ghost var b := a;
      started, missed, ok, order, blocks := {}, [], true, [], [];
      var rest := jobs.Keys;
      while rest != {}
        invariant ok && b == Seen(store) && Progress(a, b, capacity, now, started, rest)
        invariant Told(a, now, started, rest, order, blocks, missed)
        decreases |rest|
      {
        var m :| m in rest;
        SkipProgress(a, b, capacity, now, started, rest, m);
        if jobs[m].nextDue <= now {
          var starts := Reason(m).None?;
          var misses;
          ok, misses := Visit(store, m, now);
          if !ok {
            missed := missed + misses;
            return;
          }
          VisitProgress(a, b, Seen(store), capacity, now, started, rest, m);
          VisitReports(a, b, capacity, now, started, rest, m, misses);
          VisitTold(a, now, started, rest, order, blocks, missed, m, misses, if starts then started + {m} else started);
          missed, order, blocks := missed + misses, order + [m], blocks + [misses];
          b := Seen(store);
          started := if starts then started + {m} else started;
        } else {
          SkipTold(a, now, started, rest, order, blocks, missed, m);
        }
        rest := rest - {m};
      }
      SettledHolds(a, b, capacity, now, started);
    }
  }

  method SkippedSlots(m: string, due: int, interval: int, count: nat) returns (skipped: seq<MissedRun>)
    ensures |skipped| == count
    ensures forall i :: 0 <= i < count ==> skipped[i] == MissedRun(m, due + interval * (i + 1), Capacity)
  {
    skipped := [];
    for i := 0 to count
      invariant |skipped| == i
      invariant forall j :: 0 <= j < i ==> skipped[j] == MissedRun(m, due + interval * (j + 1), Capacity)
    {
      skipped := skipped + [MissedRun(m, due + interval * (i + 1), Capacity)];
    }
  }
}
