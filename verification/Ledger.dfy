/**
The stored cursors together with a ledger of what became of every slot: what each store operation of
the scheduler keeps, over restarts and new configurations.
*/
module Ledger {
  import opened Options
  import opened Scheduler

  datatype Assignment = Assignment(monitorRevision: int, interval: int)

  type Assignments = map<string, Assignment>

  /** One monitor under one configuration revision. */
  datatype Key = Key(monitor: string, config: int)

  /** A slot of the grid: claimed for a run, or counted as missed. */
  datatype Fate = Fate(at: int, claimed: bool)

  datatype Book = Book(
    rows: Rows,                        // the stored cursors
    configs: map<int, Assignments>,    // every configuration the scheduler was given, by revision
    latest: int,                       // the last of them
    first: map<Key, int>,              // first due time of each key
    slots: map<Key, seq<Fate>>)        // what became of its slots, in order

  predicate ValidAssignments(a: Assignments) {
    forall m :: m in a ==> m != "" && a[m].monitorRevision >= 1 && MINIMUM_INTERVAL <= a[m].interval <= MAXIMUM_INTERVAL
  }

  // ---------------------------------------------------------------- grid arithmetic

  function At(first: int, interval: int, i: int): int {
    first + interval * i
  }

  lemma AtShift(first: int, interval: int, n: int, i: int)
    ensures At(At(first, interval, n), interval, i) == At(first, interval, n + i)
  {
  }

  /** `n` consecutive slots from `at` on, the first of them claimed if `claimed`. */
  function Fates(at: int, interval: int, n: nat, claimed: bool): seq<Fate> {
    seq(n, i => Fate(At(at, interval, i), claimed && i == 0))
  }

  ghost predicate OnGrid(first: int, interval: int, h: seq<Fate>) {
    forall i :: 0 <= i < |h| ==> h[i].at == At(first, interval, i)
  }

  function Misses(h: seq<Fate>): nat {
    if h == [] then 0 else Misses(h[..|h| - 1]) + (if h[|h| - 1].claimed then 0 else 1)
  }

  function Claims(h: seq<Fate>): nat {
    if h == [] then 0 else Claims(h[..|h| - 1]) + (if h[|h| - 1].claimed then 1 else 0)
  }

  lemma {:induction false} ClaimsAndMisses(h: seq<Fate>)
    ensures Claims(h) + Misses(h) == |h|
  {
    if h != [] {
      ClaimsAndMisses(h[..|h| - 1]);
    }
  }

  lemma {:induction false} MissesAppend(h: seq<Fate>, at: int, interval: int, n: nat, claimed: bool)
    ensures Misses(h + Fates(at, interval, n, claimed)) == Misses(h) + n - (if claimed && n > 0 then 1 else 0)
  {
    var t := h + Fates(at, interval, n, claimed);
    if n == 0 {
      assert t == h;
    } else {
      assert t[..|t| - 1] == h + Fates(at, interval, n - 1, claimed);
      MissesAppend(h, at, interval, n - 1, claimed);
    }
  }

  lemma GridAppend(first: int, interval: int, h: seq<Fate>, n: nat, claimed: bool)
    requires OnGrid(first, interval, h)
    ensures OnGrid(first, interval, h + Fates(At(first, interval, |h|), interval, n, claimed))
  {
    var t := h + Fates(At(first, interval, |h|), interval, n, claimed);
    forall i | |h| <= i < |t| ensures t[i].at == At(first, interval, i) {
      AtShift(first, interval, |h|, i - |h|);
    }
  }

  // ---------------------------------------------------------------- what holds of the book

  predicate Tracked(b: Book, k: Key) {
    k in b.first && k in b.slots && k.config in b.configs && k.monitor in b.configs[k.config]
  }

  function Interval(b: Book, k: Key): int
    requires Tracked(b, k)
  {
    b.configs[k.config][k.monitor].interval
  }

  function Cursor(b: Book, k: Key): int
    requires Tracked(b, k)
  {
    At(b.first[k], Interval(b, k), |b.slots[k]|)
  }

  function RevisionOf(b: Book, k: Key): Revision
    requires Tracked(b, k)
  {
    Revision(b.configs[k.config][k.monitor].monitorRevision, k.config)
  }

  /** The stored row of `k` agrees with the ledger. */
  ghost predicate RowAgrees(b: Book, k: Key, row: Row) {
    && Tracked(b, k) && row.revision == RevisionOf(b, k)
    && row.nextDue == Cursor(b, k) && row.missed == Misses(b.slots[k])
  }

  ghost predicate GoodConfigs(b: Book) {
    && (forall c :: c in b.configs ==> 1 <= c <= b.latest && ValidAssignments(b.configs[c]))
    && (b.latest == 0 || b.latest in b.configs)
  }

  ghost predicate GoodSlots(b: Book) {
    && (forall k :: k in b.first ==> Tracked(b, k))
    && (forall k :: k in b.slots ==> Tracked(b, k) && OnGrid(b.first[k], Interval(b, k), b.slots[k]))
  }

  ghost predicate GoodRows(b: Book) {
    && (forall m :: m in b.rows ==> RowAgrees(b, Key(m, b.rows[m].revision.config), b.rows[m]))
    && (forall k :: k in b.first && k.config == b.latest ==> k.monitor in b.rows && b.rows[k.monitor].revision.config == k.config)
  }

  ghost predicate Good(b: Book) {
    GoodConfigs(b) && GoodSlots(b) && GoodRows(b)
  }

  // ---------------------------------------------------------------- the operations

  /** The scheduler is given configuration `config`: a new one, or the latest again. */
  predicate Offers(b: Book, config: int, a: Assignments) {
    && config >= 1 && config >= b.latest && ValidAssignments(a)
    && (config == b.latest ==> config in b.configs && b.configs[config] == a)
  }

  function Offered(b: Book, config: int, a: Assignments): Book {
    b.(configs := b.configs[config := a], latest := config)
  }

  /** `RestoreSchedule` for monitor `m` of the latest configuration. */
  function RestoredIn(b: Book, m: string, initialDue: int, now: int): Book
    requires b.latest in b.configs && m in b.configs[b.latest] && b.configs[b.latest][m].interval > 0
  {
    var k := Key(m, b.latest);
    var a := b.configs[b.latest][m];
    var revision := Revision(a.monitorRevision, b.latest);
    var rows' := b.rows[m := Restored(b.rows, m, revision, initialDue, a.interval, now)];
    if m in b.rows && b.rows[m].revision == revision then
      var due := b.rows[m].nextDue;
      b.(rows := rows', slots := b.slots[k := (if k in b.slots then b.slots[k] else []) + Fates(due, a.interval, Elapsed(due, a.interval, now), false)])
    else
      b.(rows := rows', first := b.first[k := initialDue], slots := b.slots[k := []])
  }

  /** `AdvanceSchedule` for a job at `due`, over all slots up to `now`; no change if the cursor is not the job's. */
  function AdvancedIn(b: Book, m: string, revision: Revision, due: int, interval: int, now: int, starts: bool): Book
    requires interval > 0 && due <= now
  {
    var k := Key(m, revision.config);
    var n := Elapsed(due, interval, now);
    match Advanced(b.rows, m, revision, CaughtUp(due, interval, now), if starts then n - 1 else n)
    case None => b
    case Some(rows') => b.(rows := rows', slots := b.slots[k := (if k in b.slots then b.slots[k] else []) + Fates(due, interval, n, starts)])
  }

  function PrunedIn(b: Book): Book
    requires b.latest in b.configs
  {
    b.(rows := Kept(b.rows, b.configs[b.latest].Keys))
  }

  // ---------------------------------------------------------------- what they keep

  /** Key `k` and its row stand in `c` as they did in `b`. */
  ghost predicate SameKey(b: Book, c: Book, k: Key) {
    Tracked(b, k) ==> Tracked(c, k) && c.first[k] == b.first[k] && c.slots[k] == b.slots[k]
                      && c.configs[k.config][k.monitor] == b.configs[k.config][k.monitor]
  }

  lemma OfferKeeps(b: Book, config: int, a: Assignments)
    requires Good(b) && Offers(b, config, a)
    ensures Good(Offered(b, config, a))
    ensures forall k :: Tracked(b, k) ==> SameKey(b, Offered(b, config, a), k)
  {
    var c := Offered(b, config, a);
    forall k | Tracked(b, k) ensures SameKey(b, c, k) {
    }
    forall m | m in c.rows ensures RowAgrees(c, Key(m, c.rows[m].revision.config), c.rows[m]) {
      assert SameKey(b, c, Key(m, b.rows[m].revision.config));
    }
    assert GoodSlots(c) by {
      forall k | k in c.slots ensures Tracked(c, k) && OnGrid(c.first[k], Interval(c, k), c.slots[k]) {
        assert SameKey(b, c, k);
      }
    }
    forall k | k in c.first && k.config == c.latest ensures k.monitor in c.rows && c.rows[k.monitor].revision.config == k.config {
      assert Tracked(b, k);
    }
  }

  /** A key whose slots grew by `n` from its cursor stays on its grid, its cursor `n` slots on. */
  lemma Extended(b: Book, c: Book, k: Key, due: int, n: nat, starts: bool)
    requires Tracked(b, k) && OnGrid(b.first[k], Interval(b, k), b.slots[k]) && due == Cursor(b, k)
    requires c.configs == b.configs && c.first == b.first
    requires c.slots == b.slots[k := b.slots[k] + Fates(due, Interval(b, k), n, starts)]
    ensures Tracked(c, k) && OnGrid(c.first[k], Interval(c, k), c.slots[k])
    ensures Cursor(c, k) == At(due, Interval(b, k), n)
    ensures Misses(c.slots[k]) == Misses(b.slots[k]) + n - (if starts && n > 0 then 1 else 0)
  {
    GridAppend(b.first[k], Interval(b, k), b.slots[k], n, starts);
    MissesAppend(b.slots[k], due, Interval(b, k), n, starts);
    AtShift(b.first[k], Interval(b, k), |b.slots[k]|, n);
  }

  /** One row and one key changed together, and agree: the rest of the book is as good as it was. */
  lemma OneKeyChanged(b: Book, c: Book, m: string, k: Key)
    requires Good(b) && c.configs == b.configs && c.latest == b.latest
    requires k.monitor == m && m in c.rows && RowAgrees(c, k, c.rows[m]) && OnGrid(c.first[k], Interval(c, k), c.slots[k])
    requires SameElsewhere(b.rows, c.rows, m)
    requires forall j :: j != k ==> (j in b.first <==> j in c.first) && (j in b.first ==> c.first[j] == b.first[j])
    requires forall j :: j != k ==> (j in b.slots <==> j in c.slots) && (j in b.slots ==> c.slots[j] == b.slots[j])
    requires k.config == b.latest || (m in b.rows && b.rows[m].revision.config == k.config)
    ensures Good(c)
  {
    forall j | j != k && Tracked(b, j) ensures SameKey(b, c, j) {
    }
    forall x | x in c.rows ensures RowAgrees(c, Key(x, c.rows[x].revision.config), c.rows[x]) {
      if x != m {
        assert RowAgrees(b, Key(x, b.rows[x].revision.config), b.rows[x]);
      }
    }
    forall j | j in c.first && j.config == c.latest ensures j.monitor in c.rows && c.rows[j.monitor].revision.config == j.config {
      if j != k {
        assert j in b.first;
      }
    }
  }

  lemma RestoredRow(b: Book, m: string, initialDue: int, now: int)
    requires b.latest in b.configs && m in b.configs[b.latest] && b.configs[b.latest][m].interval > 0
    requires var k := Key(m, b.latest);
             RowCarriesLatest(b, m) ==> RowAgrees(b, k, b.rows[m]) && OnGrid(b.first[k], Interval(b, k), b.slots[k])
    ensures var c, k := RestoredIn(b, m, initialDue, now), Key(m, b.latest);
            RowAgrees(c, k, c.rows[m]) && OnGrid(c.first[k], Interval(c, k), c.slots[k])
  {
    if RowCarriesLatest(b, m) {
      var a, due := b.configs[b.latest][m], b.rows[m].nextDue;
      Extended(b, RestoredIn(b, m, initialDue, now), Key(m, b.latest), due, Elapsed(due, a.interval, now), false);
    }
  }

  /** The row of `m` is of the latest configuration's revisions. */
  predicate RowCarriesLatest(b: Book, m: string) {
    && b.latest in b.configs && m in b.configs[b.latest] && m in b.rows
    && b.rows[m].revision == Revision(b.configs[b.latest][m].monitorRevision, b.latest)
  }

  lemma RestoreKeeps(b: Book, m: string, initialDue: int, now: int)
    requires Good(b) && b.latest in b.configs && m in b.configs[b.latest]
    ensures b.configs[b.latest][m].interval > 0
    ensures Good(RestoredIn(b, m, initialDue, now))
  {
    assert ValidAssignments(b.configs[b.latest]);
    if RowCarriesLatest(b, m) {
      assert RowAgrees(b, Key(m, b.latest), b.rows[m]);
    }
    RestoredRow(b, m, initialDue, now);
    OneKeyChanged(b, RestoredIn(b, m, initialDue, now), m, Key(m, b.latest));
  }

  lemma AdvancedRow(b: Book, m: string, revision: Revision, due: int, interval: int, now: int, starts: bool)
    requires interval > 0 && due <= now && m in b.rows && b.rows[m].revision == revision && b.rows[m].nextDue == due
    requires var k := Key(m, revision.config);
             RowAgrees(b, k, b.rows[m]) && Interval(b, k) == interval && OnGrid(b.first[k], Interval(b, k), b.slots[k])
    ensures var c, k := AdvancedIn(b, m, revision, due, interval, now, starts), Key(m, revision.config);
            m in c.rows && RowAgrees(c, k, c.rows[m]) && OnGrid(c.first[k], Interval(c, k), c.slots[k])
  {
    Extended(b, AdvancedIn(b, m, revision, due, interval, now, starts), Key(m, revision.config), due, Elapsed(due, interval, now), starts);
  }

  lemma AdvanceKeeps(b: Book, m: string, revision: Revision, due: int, interval: int, now: int, starts: bool)
    requires Good(b) && interval > 0 && due <= now
    requires m in b.rows && b.rows[m].revision == revision ==>
               b.rows[m].nextDue == due && Tracked(b, Key(m, revision.config)) && Interval(b, Key(m, revision.config)) == interval
    ensures Good(AdvancedIn(b, m, revision, due, interval, now, starts))
  {
    if m in b.rows && b.rows[m].revision == revision {
      assert RowAgrees(b, Key(m, revision.config), b.rows[m]);
      AdvancedRow(b, m, revision, due, interval, now, starts);
      OneKeyChanged(b, AdvancedIn(b, m, revision, due, interval, now, starts), m, Key(m, revision.config));
    }
  }

  lemma PruneKeeps(b: Book)
    requires Good(b) && b.latest in b.configs
    ensures Good(PrunedIn(b))
  {
    var c := PrunedIn(b);
    forall m | m in c.rows ensures RowAgrees(c, Key(m, c.rows[m].revision.config), c.rows[m]) {
      assert RowAgrees(b, Key(m, b.rows[m].revision.config), b.rows[m]);
    }
    forall k | k in c.first && k.config == c.latest ensures k.monitor in c.rows && c.rows[k.monitor].revision.config == k.config {
      assert Tracked(b, k);
    }
  }

  // ---------------------------------------------------------------- nothing is forgotten

  /** Every key of `b` is in `c` with the same grid, and its slots only grew. */
  ghost predicate Grows(b: Book, c: Book) {
    forall k :: Tracked(b, k) ==>
      && Tracked(c, k) && c.first[k] == b.first[k] && b.slots[k] <= c.slots[k]
      && RevisionOf(c, k) == RevisionOf(b, k) && Interval(c, k) == Interval(b, k)
  }

  lemma OfferGrows(b: Book, config: int, a: Assignments)
    requires Good(b) && Offers(b, config, a)
    ensures Grows(b, Offered(b, config, a))
  {
    OfferKeeps(b, config, a);
  }

  lemma RestoreGrows(b: Book, m: string, initialDue: int, now: int)
    requires Good(b) && b.latest in b.configs && m in b.configs[b.latest] && b.configs[b.latest][m].interval > 0
    ensures Grows(b, RestoredIn(b, m, initialDue, now)) && Tracked(RestoredIn(b, m, initialDue, now), Key(m, b.latest))
  {
    var k := Key(m, b.latest);
    if Tracked(b, k) {
      assert RowAgrees(b, k, b.rows[m]);
    }
  }

  lemma AdvanceGrows(b: Book, m: string, revision: Revision, due: int, interval: int, now: int, starts: bool)
    requires interval > 0 && due <= now
    ensures Grows(b, AdvancedIn(b, m, revision, due, interval, now, starts))
  {
  }
}
