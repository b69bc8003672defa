/**
The observation queue in the agent's SQLite database: the pending and rejected tables, the
synchronization row, and the transactions that change them.

`Database` is the value of the three tables; the functions on it say what each transaction does, and
`Store` performs them in place.  A transaction that fails is rolled back, so it changes nothing.
*/
module AgentStore {
  import opened Options
  import opened Strings
  import opened TimeKeys
  import opened Ordering

  const MAX_REJECTION_DETAILS_BYTES := 2 * 1024

  /** Go's zero time, 0001-01-01T00:00:00Z, stands for "not set". */
  const ZERO_TIME: Instant := 366 * SECONDS_PER_DAY * NANOS_PER_SECOND

  /** Primary key of both tables.  Stored as text; by `FormatInjective` text equality is key equality. */
  datatype Key = Key(scheduledAt: Instant, id: string)

  datatype Observation = Observation(
    key: Key,
    monitor: string,
    monitorRevision: int,
    configRevision: int,
    probeType: string,
    payload: string,
    createdAt: Instant,
    attempts: nat,
    nextAttempt: Instant,
    lastAttempt: Option<Instant>,
    lastError: Option<string>)

  datatype Rejection = Rejection(payload: string, code: string, details: string, rejectedAt: Instant)

  datatype Synchronization = Synchronization(
    lastContact: Option<Instant>,
    lastUpload: Option<Instant>,
    failures: nat,
    backoffUntil: Option<Instant>)

  datatype Database = Database(
    pending: map<Key, Observation>,
    rejected: map<Key, Rejection>,
    sync: Synchronization)

  datatype Limits = Limits(maxCount: int, maxBytes: int)

  datatype StoreError =
    | FieldsRequired | LimitsRequired | ObservationConflict | QueueFull
    | UntrustedAcknowledgement | RowMissing | KeyExists

  type Transaction = Result<Database, StoreError>

  // ---------------------------------------------------------------- queue size

  /** SUM(payload_size_bytes) over the pending table. */
  ghost function Bytes(pending: map<Key, Observation>): nat {
    if pending == map[] then 0
    else
      var k :| k in pending;
      |pending[k].payload| + Bytes(pending - {k})
  }

  lemma {:induction false} BytesRemove(pending: map<Key, Observation>, k: Key)
    requires k in pending
    ensures Bytes(pending) == |pending[k].payload| + Bytes(pending - {k})
    decreases |pending|
  {
    var j :| j in pending && Bytes(pending) == |pending[j].payload| + Bytes(pending - {j});
    if j != k {
      BytesRemove(pending - {j}, k);
      BytesRemove(pending - {k}, j);
      assert pending - {j} - {k} == pending - {k} - {j};
    }
  }

  lemma BytesInsert(pending: map<Key, Observation>, k: Key, o: Observation)
    requires k !in pending
    ensures Bytes(pending[k := o]) == Bytes(pending) + |o.payload|
  {
    BytesRemove(pending[k := o], k);
    assert pending[k := o] - {k} == pending;
  }

  ghost predicate WithinLimits(db: Database, limits: Limits) {
    |db.pending| <= limits.maxCount && Bytes(db.pending) <= limits.maxBytes
  }

  // ---------------------------------------------------------------- enqueue

  predicate FieldsPresent(o: Observation) {
    && o.key.id != "" && o.monitor != "" && o.monitorRevision >= 1 && o.configRevision >= 1
    && o.probeType != "" && o.payload != ""
  }

  function WithDefaults(o: Observation, clock: Instant): Observation {
    var created := if o.createdAt == ZERO_TIME then clock else o.createdAt;
    o.(createdAt := created, nextAttempt := if o.nextAttempt == ZERO_TIME then created else o.nextAttempt,
       lastAttempt := None, lastError := None)
  }

  ghost function Enqueued(db: Database, o: Observation, limits: Limits, clock: Instant): Transaction {
    if !FieldsPresent(o) then Err(FieldsRequired)
    else if limits.maxCount < 1 || limits.maxBytes < 1 then Err(LimitsRequired)
    else if o.key in db.pending then
      if db.pending[o.key].payload == o.payload then Ok(db) else Err(ObservationConflict)
    else if |db.pending| + 1 > limits.maxCount || Bytes(db.pending) + |o.payload| > limits.maxBytes then Err(QueueFull)
    else Ok(db.(pending := db.pending[o.key := WithDefaults(o, clock)]))
  }

  /** After an accepted enqueue the queue holds that payload under that key, within the limits. */
  lemma EnqueueKeepsPayload(db: Database, o: Observation, limits: Limits, clock: Instant)
    requires Enqueued(db, o, limits, clock).Ok?
    ensures var after := Enqueued(db, o, limits, clock).value;
            && o.key in after.pending && after.pending[o.key].payload == o.payload
            && (forall k :: k in db.pending ==> k in after.pending && after.pending[k] == db.pending[k])
            && after.rejected == db.rejected && after.sync == db.sync
            && (WithinLimits(db, limits) ==> WithinLimits(after, limits))
  {
    if o.key !in db.pending {
      BytesInsert(db.pending, o.key, WithDefaults(o, clock));
    }
  }

  /** The row as it is queued: what was recorded, due at once unless it asks for a later time, never attempted. */
  ghost predicate QueuedAs(row: Observation, o: Observation, clock: Instant) {
    && row.key == o.key && row.monitor == o.monitor && row.monitorRevision == o.monitorRevision && row.configRevision == o.configRevision
    && row.probeType == o.probeType && row.payload == o.payload && row.attempts == o.attempts
    && (o.createdAt != ZERO_TIME ==> row.createdAt == o.createdAt) && (o.createdAt == ZERO_TIME ==> row.createdAt == clock)
    && (o.nextAttempt != ZERO_TIME ==> row.nextAttempt == o.nextAttempt) && (o.nextAttempt == ZERO_TIME ==> row.nextAttempt == row.createdAt)
    && row.lastAttempt.None? && row.lastError.None?
  }

  /**
  A complete observation is accepted exactly when the queue already holds it, or would be within its limits with
  it; only then is anything added, and an identity never changes its payload.
  */
  lemma EnqueuesIff(db: Database, o: Observation, limits: Limits, clock: Instant)
    ensures Enqueued(db, o, limits, clock).Ok? <==>
              && FieldsPresent(o) && limits.maxCount >= 1 && limits.maxBytes >= 1
              && (if o.key in db.pending then db.pending[o.key].payload == o.payload
                  else WithinLimits(db.(pending := db.pending[o.key := o]), limits))
    ensures Enqueued(db, o, limits, clock) == Err(ObservationConflict) <==>
              && FieldsPresent(o) && limits.maxCount >= 1 && limits.maxBytes >= 1
              && o.key in db.pending && db.pending[o.key].payload != o.payload
  {
    if o.key !in db.pending {
      BytesInsert(db.pending, o.key, o);
      assert db.pending[o.key := o].Keys == db.pending.Keys + {o.key};
    }
  }

  /** What is queued again changes nothing; what is new is added as it was recorded, and nothing else moves. */
  lemma EnqueuesAsRecorded(db: Database, o: Observation, limits: Limits, clock: Instant)
    requires Enqueued(db, o, limits, clock).Ok?
    ensures o.key in db.pending ==> Enqueued(db, o, limits, clock) == Ok(db)
    ensures o.key !in db.pending ==>
              var after := Enqueued(db, o, limits, clock).value;
              && o.key in after.pending && after.pending - {o.key} == db.pending && QueuedAs(after.pending[o.key], o, clock)
              && after.rejected == db.rejected && after.sync == db.sync
  {
    if o.key !in db.pending {
      assert db.pending[o.key := WithDefaults(o, clock)] - {o.key} == db.pending;
    }
  }

  // ---------------------------------------------------------------- acknowledgements

  datatype Disposition = Accepted | Duplicate | Rejected | Unknown(name: string)

  datatype Acknowledgement = Acknowledgement(
    key: Key,
    disposition: Disposition,
    code: string,
    retryable: bool,
    details: string,
    nextAttempt: Instant)
  {
    predicate Terminal() { disposition.Accepted? || disposition.Duplicate? }
    predicate Permanent() { disposition.Rejected? && !retryable }
  }

  function Microsecond(t: Instant): (m: Instant)
    ensures m <= t < m + 1000
  {
    t - t % 1000
  }

  /** The identity the server can carry: PostgreSQL keeps microseconds. */
  function WireKey(k: Key): Key {
    k.(scheduledAt := Microsecond(k.scheduledAt))
  }

  predicate WellFormed(a: Acknowledgement) {
    match a.disposition
    case Accepted => a.code == "" && !a.retryable
    case Duplicate => a.code == "" && !a.retryable
    case Rejected =>
      a.code != "" && |a.details| <= MAX_REJECTION_DETAILS_BYTES && (a.retryable ==> a.nextAttempt != ZERO_TIME)
    case Unknown(_) => false
  }

  predicate Matches(o: Observation, a: Acknowledgement) {
    WireKey(a.key) == WireKey(o.key) && WellFormed(a)
  }

  /** A response is trusted when it answers every row of the batch once, in order. */
  ghost predicate Trusted(batch: seq<Observation>, acks: seq<Acknowledgement>) {
    && 0 < |batch| == |acks|
    && (forall i, j :: 0 <= i < j < |acks| ==> acks[i].key != acks[j].key)
    && (forall i :: 0 <= i < |acks| ==> Matches(batch[i], acks[i]))
  }

  function Retried(o: Observation, a: Acknowledgement, now: Instant): Observation {
    o.(attempts := o.attempts + 1, nextAttempt := a.nextAttempt, lastAttempt := Some(now), lastError := Some(a.code))
  }

  ghost function Applied(db: Database, o: Observation, a: Acknowledgement, now: Instant): Transaction {
    var k := o.key;
    if a.Terminal() then Ok(db.(pending := db.pending - {k}))
    else if !a.disposition.Rejected? then Ok(db)
    else if a.retryable then
      Ok(if k in db.pending then db.(pending := db.pending[k := Retried(db.pending[k], a, now)]) else db)
    else if k in db.rejected then Err(KeyExists)
    else Ok(db.(pending := db.pending - {k}, rejected := db.rejected[k := Rejection(o.payload, a.code, a.details, now)]))
  }

  /** The statements of the cleanup transaction, row after row. */
  ghost function AppliedAll(db: Database, batch: seq<Observation>, acks: seq<Acknowledgement>, now: Instant): Transaction
    requires |batch| == |acks|
  {
    if batch == [] then Ok(db)
    else
      var n := |batch| - 1;
      match AppliedAll(db, batch[..n], acks[..n], now)
      case Err(e) => Err(e)
      case Ok(before) => Applied(before, batch[n], acks[n], now)
  }

  ghost function Acknowledged(db: Database, batch: seq<Observation>, acks: seq<Acknowledgement>, now: Instant): Transaction {
    if !Trusted(batch, acks) then Err(UntrustedAcknowledgement)
    else
      match AppliedAll(db, batch, acks, now)
      case Err(e) => Err(e)
      case Ok(after) => Ok(after.(sync := Synchronization(Some(now), Some(now), 0, None)))
  }

  ghost predicate DistinctKeys(batch: seq<Observation>) {
    forall i, j :: 0 <= i < j < |batch| ==> batch[i].key != batch[j].key
  }

  /** What one answered row does to the tables, read off the tables alone. */
  ghost predicate RowSettled(before: Database, after: Database, o: Observation, a: Acknowledgement, now: Instant) {
    var k := o.key;
    && (k in after.rejected <==> k in before.rejected || a.Permanent())
    && (k in before.rejected ==> after.rejected[k] == before.rejected[k])
    && (a.Permanent() ==> after.rejected[k] == Rejection(o.payload, a.code, a.details, now))
    && (k in after.pending <==> k in before.pending && !a.Terminal() && !a.Permanent())
    && (k in after.pending ==> after.pending[k] == Retried(before.pending[k], a, now))
  }

  ghost predicate SameAt(before: Database, after: Database, k: Key) {
    && (k in after.pending <==> k in before.pending)
    && (k in before.pending ==> after.pending[k] == before.pending[k])
    && (k in after.rejected <==> k in before.rejected)
    && (k in before.rejected ==> after.rejected[k] == before.rejected[k])
  }

  ghost function Keys(batch: seq<Observation>): set<Key> {
    set i | 0 <= i < |batch| :: batch[i].key
  }

  ghost predicate OthersUntouched(before: Database, after: Database, batch: seq<Observation>) {
    forall k :: k !in Keys(batch) ==> SameAt(before, after, k)
  }

  lemma {:induction false} UntouchedAt(db: Database, batch: seq<Observation>, acks: seq<Acknowledgement>, now: Instant, k: Key)
    requires |batch| == |acks| && AppliedAll(db, batch, acks, now).Ok?
    requires k !in Keys(batch)
    ensures SameAt(db, AppliedAll(db, batch, acks, now).value, k)
    ensures AppliedAll(db, batch, acks, now).value.sync == db.sync
  {
    if batch != [] {
      var n := |batch| - 1;
      assert Keys(batch[..n]) <= Keys(batch) && batch[n].key in Keys(batch);
      UntouchedAt(db, batch[..n], acks[..n], now, k);
    }
  }

  lemma {:induction false} SettledAt(db: Database, batch: seq<Observation>, acks: seq<Acknowledgement>, now: Instant, i: nat)
    requires i < |batch| == |acks| && DistinctKeys(batch) && AppliedAll(db, batch, acks, now).Ok? && WellFormed(acks[i])
    ensures RowSettled(db, AppliedAll(db, batch, acks, now).value, batch[i], acks[i], now)
  {
    var n := |batch| - 1;
    if i < n {
      SettledAt(db, batch[..n], acks[..n], now, i);
      assert batch[n].key != batch[i].key;
    } else {
      assert batch[n].key !in Keys(batch[..n]);
      UntouchedAt(db, batch[..n], acks[..n], now, batch[n].key);
    }
  }

  /** A row the transaction cannot insert: it is already quarantined. */
  ghost predicate Blocked(db: Database, o: Observation, a: Acknowledgement) {
    a.Permanent() && o.key in db.rejected
  }

  lemma {:induction false} CommitsUnlessBlocked(db: Database, batch: seq<Observation>, acks: seq<Acknowledgement>, now: Instant)
    requires |batch| == |acks| && DistinctKeys(batch)
    ensures AppliedAll(db, batch, acks, now).Ok? <==> forall i :: 0 <= i < |batch| ==> !Blocked(db, batch[i], acks[i])
  {
    if batch != [] {
      var n := |batch| - 1;
      CommitsUnlessBlocked(db, batch[..n], acks[..n], now);
      if AppliedAll(db, batch[..n], acks[..n], now).Ok? {
        assert forall i :: 0 <= i < n ==> !Blocked(db, batch[..n][i], acks[..n][i]);
        assert batch[n].key !in Keys(batch[..n]);
        UntouchedAt(db, batch[..n], acks[..n], now, batch[n].key);
      } else {
        var i :| 0 <= i < n && Blocked(db, batch[..n][i], acks[..n][i]);
        assert Blocked(db, batch[i], acks[i]);
      }
    }
  }

  /**
  The cleanup transaction on the rows of one upload.  It commits exactly when the response is trusted
  and no permanently rejected row is already quarantined; then every row goes where its own answer
  says and no other row moves.  Otherwise nothing changes.
  */
  lemma AcknowledgementEffect(db: Database, batch: seq<Observation>, acks: seq<Acknowledgement>, now: Instant)
    requires DistinctKeys(batch)
    ensures Acknowledged(db, batch, acks, now).Ok? <==>
              Trusted(batch, acks) && forall i :: 0 <= i < |batch| ==> !Blocked(db, batch[i], acks[i])
    ensures Acknowledged(db, batch, acks, now).Ok? ==>
              var after := Acknowledged(db, batch, acks, now).value;
              && OthersUntouched(db, after, batch)
              && (forall i :: 0 <= i < |batch| ==> RowSettled(db, after, batch[i], acks[i], now))
              && after.sync == Synchronization(Some(now), Some(now), 0, None)
  {
    if Trusted(batch, acks) {
      CommitsUnlessBlocked(db, batch, acks, now);
      if Acknowledged(db, batch, acks, now).Ok? {
        var after := Acknowledged(db, batch, acks, now).value;
        forall k | k !in Keys(batch) ensures SameAt(db, after, k) {
          UntouchedAt(db, batch, acks, now, k);
        }
        forall i | 0 <= i < |batch| ensures RowSettled(db, after, batch[i], acks[i], now) {
          SettledAt(db, batch, acks, now, i);
        }
      }
    }
  }

  /** What is wrong with the `i`th answer: it is for another row, comes twice, or contradicts itself. */
  ghost predicate Flawed(batch: seq<Observation>, acks: seq<Acknowledgement>, i: nat) {
    && i < |acks| && i < |batch|
    && var a := acks[i];
       || a.key.id != batch[i].key.id
       || a.key.scheduledAt / 1000 != batch[i].key.scheduledAt / 1000
       || (exists j :: 0 <= j < i && acks[j].key == a.key)
       || a.disposition.Unknown?
       || (!a.disposition.Rejected? && (a.code != "" || a.retryable))
       || (a.disposition.Rejected? && (a.code == "" || |a.details| > MAX_REJECTION_DETAILS_BYTES || (a.retryable && a.nextAttempt == ZERO_TIME)))
  }

  /** A response is refused exactly when it does not answer every row of the batch, or some answer is flawed. */
  lemma UntrustedIff(db: Database, batch: seq<Observation>, acks: seq<Acknowledgement>, now: Instant)
    ensures Acknowledged(db, batch, acks, now) == Err(UntrustedAcknowledgement) <==>
              batch == [] || |acks| != |batch| || exists i :: Flawed(batch, acks, i)
  {
    if batch != [] && |acks| == |batch| {
      forall i: nat | i < |acks| ensures WireKey(acks[i].key) == WireKey(batch[i].key) <==>
                                    acks[i].key.id == batch[i].key.id && acks[i].key.scheduledAt / 1000 == batch[i].key.scheduledAt / 1000 {
        SameMicrosecond(acks[i].key.scheduledAt, batch[i].key.scheduledAt);
      }
      if !Trusted(batch, acks) {
        if i, j :| 0 <= i < j < |acks| && acks[i].key == acks[j].key {
          assert Flawed(batch, acks, j);
        } else {
          var i :| 0 <= i < |acks| && !Matches(batch[i], acks[i]);
          assert Flawed(batch, acks, i);
        }
      } else {
        OnlyKeyExists(db, batch, acks, now);
        forall i: nat | i < |acks| ensures !Flawed(batch, acks, i) {
          assert Matches(batch[i], acks[i]);
        }
      }
    }
  }

  lemma SameMicrosecond(s: Instant, t: Instant)
    ensures Microsecond(s) == Microsecond(t) <==> s / 1000 == t / 1000
  {
  }

  lemma {:induction false} OnlyKeyExists(db: Database, batch: seq<Observation>, acks: seq<Acknowledgement>, now: Instant)
    requires |batch| == |acks|
    ensures AppliedAll(db, batch, acks, now).Err? ==> AppliedAll(db, batch, acks, now).error == KeyExists
  {
    if batch != [] {
      OnlyKeyExists(db, batch[..|batch| - 1], acks[..|batch| - 1], now);
    }
  }

  lemma {:induction false} AppliedAllShrinks(db: Database, batch: seq<Observation>, acks: seq<Acknowledgement>, now: Instant)
    requires |batch| == |acks| && AppliedAll(db, batch, acks, now).Ok?
    ensures var after := AppliedAll(db, batch, acks, now).value;
            after.pending.Keys <= db.pending.Keys && Bytes(after.pending) <= Bytes(db.pending)
  {
    if batch != [] {
      var n := |batch| - 1;
      AppliedAllShrinks(db, batch[..n], acks[..n], now);
      var before := AppliedAll(db, batch[..n], acks[..n], now).value;
      var k := batch[n].key;
      if k in before.pending {
        BytesRemove(before.pending, k);
        var updated := before.pending[k := Retried(before.pending[k], acks[n], now)];
        BytesRemove(updated, k);
        assert updated - {k} == before.pending - {k};
      } else {
        assert before.pending - {k} == before.pending;
      }
    }
  }

  /** Cleanup never grows the queue, whatever the response says. */
  lemma AcknowledgementKeepsLimits(db: Database, batch: seq<Observation>, acks: seq<Acknowledgement>, now: Instant, limits: Limits)
    requires WithinLimits(db, limits) && Acknowledged(db, batch, acks, now).Ok?
    ensures WithinLimits(Acknowledged(db, batch, acks, now).value, limits)
  {
    AppliedAllShrinks(db, batch, acks, now);
    SmallerSet(AppliedAll(db, batch, acks, now).value.pending.Keys, db.pending.Keys);
  }

  lemma {:induction false} SmallerSet<T>(a: set<T>, b: set<T>)
    requires a <= b
    ensures |a| <= |b|
  {
    if a != {} {
      var x :| x in a;
      SmallerSet(a - {x}, b - {x});
    }
  }

  // ---------------------------------------------------------------- local quarantine and failures

  ghost function Quarantined(db: Database, o: Observation, code: string, details: string, now: Instant): Transaction {
    if code == "" || |details| > MAX_REJECTION_DETAILS_BYTES then Err(FieldsRequired)
    else if o.key !in db.pending then Err(RowMissing)
    else if o.key in db.rejected then Err(KeyExists)
    else Ok(db.(pending := db.pending - {o.key},
                rejected := db.rejected[o.key := Rejection(db.pending[o.key].payload, code, details, now)]))
  }

  ghost function FailureRecorded(db: Database, backoffUntil: Instant): Database {
    db.(sync := db.sync.(failures := db.sync.failures + 1, backoffUntil := Some(backoffUntil)))
  }

  /** Quarantine moves one row, payload included, from one table to the other. */
  lemma QuarantineMovesPayload(db: Database, o: Observation, code: string, details: string, now: Instant)
    requires Quarantined(db, o, code, details, now).Ok?
    ensures var after := Quarantined(db, o, code, details, now).value;
            && |after.pending| + |after.rejected| == |db.pending| + |db.rejected|
            && Bytes(db.pending) == Bytes(after.pending) + |after.rejected[o.key].payload|
            && after.rejected[o.key].payload == db.pending[o.key].payload
  {
    BytesRemove(db.pending, o.key);
    var after := Quarantined(db, o, code, details, now).value;
    assert db.pending.Keys == after.pending.Keys + {o.key};
    assert after.rejected.Keys == db.rejected.Keys + {o.key};
  }

  // ---------------------------------------------------------------- ready rows

  /** ORDER BY scheduled_at, observation_id, both compared as text. */
  predicate Before(a: Key, b: Key) {
    var (x, y) := (FormatTime(a.scheduledAt), FormatTime(b.scheduledAt));
    TextLess(x, y) || (x == y && TextLess(a.id, b.id))
  }

  function ReadyKeys(pending: map<Key, Observation>, now: Instant): set<Key> {
    set k | k in pending && Ready(pending[k].nextAttempt, now)
  }

  /** `rows` is the answer of the readiness query: ready rows, in order, and the first ones of them. */
  ghost predicate IsReadyList(db: Database, now: Instant, limit: nat, rows: seq<Observation>) {
    && |rows| <= limit
    && (forall i :: 0 <= i < |rows| ==>
          rows[i].key in ReadyKeys(db.pending, now) && rows[i] == db.pending[rows[i].key])
    && (forall i, j :: 0 <= i < j < |rows| ==> Before(rows[i].key, rows[j].key))
    && (forall k :: k in ReadyKeys(db.pending, now) ==>
          || (exists i :: 0 <= i < |rows| && rows[i].key == k)
          || (|rows| == limit && forall i :: 0 <= i < |rows| ==> Before(rows[i].key, k)))
  }

  /** Rows are stored under their own keys. */
  ghost predicate KeyedByIdentity(db: Database) {
    forall k :: k in db.pending ==> db.pending[k].key == k
  }

  lemma BeforeIrreflexive(a: Key)
    ensures !Before(a, a)
  {
    TextLessIrreflexive(FormatTime(a.scheduledAt));
    TextLessIrreflexive(a.id);
  }

  lemma BeforeTransitive(a: Key, b: Key, c: Key)
    requires Before(a, b) && Before(b, c)
    ensures Before(a, c)
  {
    var (x, y, z) := (FormatTime(a.scheduledAt), FormatTime(b.scheduledAt), FormatTime(c.scheduledAt));
    if TextLess(x, y) && TextLess(y, z) {
      TextLessTransitive(x, y, z);
    } else if x == y == z {
      TextLessTransitive(a.id, b.id, c.id);
    }
  }

  lemma BeforeTotal(a: Key, b: Key)
    requires a != b
    ensures Before(a, b) || Before(b, a)
  {
    if a.scheduledAt == b.scheduledAt {
      TextLessTotal(a.id, b.id);
    } else {
      if FormatTime(a.scheduledAt) == FormatTime(b.scheduledAt) {
        FormatInjective(a.scheduledAt, b.scheduledAt);
      }
      TextLessTotal(FormatTime(a.scheduledAt), FormatTime(b.scheduledAt));
    }
  }

  lemma BeforeIsStrictOrder()
    ensures StrictOrder(Before)
  {
    forall a, b, c | Before(a, b) && Before(b, c) ensures Before(a, c) {
      BeforeTransitive(a, b, c);
    }
    forall a, b | a != b ensures Before(a, b) || Before(b, a) {
      BeforeTotal(a, b);
    }
  }

  lemma ReadyListDistinct(db: Database, now: Instant, limit: nat, rows: seq<Observation>)
    requires IsReadyList(db, now, limit, rows)
    ensures DistinctKeys(rows)
  {
    forall i, j | 0 <= i < j < |rows| ensures rows[i].key != rows[j].key {
      BeforeIrreflexive(rows[i].key);
    }
  }

  /** Read off the clock: what is listed is due, the older before the newer, and what is due is listed unless older rows fill the list. */
  lemma OldestDueFirst(db: Database, now: Instant, limit: nat, rows: seq<Observation>)
    requires IsReadyList(db, now, limit, rows)
    ensures forall i :: 0 <= i < |rows| ==> Second(rows[i].nextAttempt) <= Second(now)
    ensures forall i, j :: 0 <= i < j < |rows| ==> Second(rows[i].key.scheduledAt) <= Second(rows[j].key.scheduledAt)
    ensures forall k :: k in db.pending && Second(db.pending[k].nextAttempt) < Second(now) ==>
              || (exists i :: 0 <= i < |rows| && rows[i].key == k)
              || (|rows| == limit && forall i :: 0 <= i < |rows| ==> Second(rows[i].key.scheduledAt) <= Second(k.scheduledAt))
  {
    forall i | 0 <= i < |rows| ensures Second(rows[i].nextAttempt) <= Second(now) {
      ReadyWithinOneSecond(rows[i].nextAttempt, now);
    }
    forall i, j | 0 <= i < j < |rows| ensures Second(rows[i].key.scheduledAt) <= Second(rows[j].key.scheduledAt) {
      BeforeIsEarlier(rows[i].key, rows[j].key);
    }
    forall k | k in db.pending && Second(db.pending[k].nextAttempt) < Second(now)
      ensures || (exists i :: 0 <= i < |rows| && rows[i].key == k)
              || (|rows| == limit && forall i :: 0 <= i < |rows| ==> Second(rows[i].key.scheduledAt) <= Second(k.scheduledAt))
    {
      ReadyWithinOneSecond(db.pending[k].nextAttempt, now);
      assert k in ReadyKeys(db.pending, now);
      forall i | 0 <= i < |rows| && Before(rows[i].key, k) ensures Second(rows[i].key.scheduledAt) <= Second(k.scheduledAt) {
        BeforeIsEarlier(rows[i].key, k);
      }
    }
  }

  lemma BeforeIsEarlier(a: Key, b: Key)
    requires Before(a, b)
    ensures Second(a.scheduledAt) <= Second(b.scheduledAt)
  {
    if Second(b.scheduledAt) < Second(a.scheduledAt) {
      TextOrder(b.scheduledAt, a.scheduledAt);
      FormatInjective(a.scheduledAt, b.scheduledAt);
    }
  }

  method ReadyInOrder(pending: map<Key, Observation>, now: Instant, limit: nat) returns (keys: seq<Key>)
    ensures FirstOf(ReadyKeys(pending, now), limit, Before, keys)
    ensures forall k :: k in keys ==> k in pending
  {
    BeforeIsStrictOrder();
    var ready := ReadyKeys(pending, now);
    keys := FirstInOrder(ready, limit, Before);
  }

  method ScanRows(pending: map<Key, Observation>, keys: seq<Key>) returns (rows: seq<Observation>)
    requires forall k :: k in keys ==> k in pending
    ensures |rows| == |keys| && forall i :: 0 <= i < |rows| ==> rows[i] == pending[keys[i]]
  {
    rows := [];
    for i := 0 to |keys|
      invariant |rows| == i && forall j :: 0 <= j < i ==> rows[j] == pending[keys[j]]
    {
      rows := rows + [pending[keys[i]]];
    }
  }

  lemma ListedRows(db: Database, now: Instant, limit: nat, keys: seq<Key>, rows: seq<Observation>)
    requires FirstOf(ReadyKeys(db.pending, now), limit, Before, keys)
    requires |rows| == |keys| && forall i :: 0 <= i < |rows| ==> rows[i].key == keys[i] && rows[i] == db.pending[keys[i]]
    ensures IsReadyList(db, now, limit, rows)
  {
    forall k | k in ReadyKeys(db.pending, now)
      ensures || (exists i :: 0 <= i < |rows| && rows[i].key == k)
              || (|rows| == limit && forall i :: 0 <= i < |rows| ==> Before(rows[i].key, k))
    {
      ListedOrLater(ReadyKeys(db.pending, now), limit, Before, keys, rows, k);
    }
  }

  lemma ListedOrLater(ready: set<Key>, limit: nat, less: (Key, Key) -> bool, keys: seq<Key>, rows: seq<Observation>, k: Key)
    requires FirstOf(ready, limit, less, keys) && k in ready
    requires |rows| == |keys| && forall i :: 0 <= i < |rows| ==> rows[i].key == keys[i]
    ensures || (exists i :: 0 <= i < |rows| && rows[i].key == k)
            || (|rows| == limit && forall i :: 0 <= i < |rows| ==> less(rows[i].key, k))
  {
    if k in keys {
      var i :| 0 <= i < |keys| && keys[i] == k;
      assert rows[i].key == k;
    }
  }

  // ---------------------------------------------------------------- the store

  /** The text that identifies an answer while a response is checked. */
  function Identity(k: Key): string {
    FormatTime(k.scheduledAt) + "/" + k.id
  }

  predicate NoSlash(s: string) {
    forall i :: 0 <= i < |s| ==> s[i] != '/'
  }

  lemma StampNoSlash(second: nat)
    ensures NoSlash(Stamp(second))
  {
    var d := DateOf(second / SECONDS_PER_DAY);
    assert NoSlash(DateText(d)) by {
      assert NoSlash(Pad(d.year, 4)) && NoSlash(Pad(d.month, 2)) && NoSlash(Pad(d.day, 2));
    }
    var c := second % SECONDS_PER_DAY;
    assert NoSlash(ClockText(c)) by {
      assert NoSlash(Pad(c / 3600, 2)) && NoSlash(Pad(c / 60 % 60, 2)) && NoSlash(Pad(c % 60, 2));
    }
  }

  lemma FormatNoSlash(t: Instant)
    ensures NoSlash(FormatTime(t))
  {
    StampNoSlash(Second(t));
    assert NoSlash(Fraction(t));
  }

  lemma IdentityInjective(a: Key, b: Key)
    requires Identity(a) == Identity(b)
    ensures a == b
  {
    var (x, y) := (FormatTime(a.scheduledAt), FormatTime(b.scheduledAt));
    FormatNoSlash(a.scheduledAt);
    FormatNoSlash(b.scheduledAt);
    var s := Identity(a);
    assert s[|x|] == '/' && s[|y|] == '/';
    assert |x| == |y| by {
      assert forall i :: 0 <= i < |y| ==> y[i] == s[i];
      assert forall i :: 0 <= i < |x| ==> x[i] == s[i];
    }
    assert x == s[..|x|] == y && a.id == s[|x| + 1..] == b.id;
    FormatInjective(a.scheduledAt, b.scheduledAt);
  }

  /** The `seen` map is keyed by `Identity`; by `IdentityInjective` that is a set of keys. */
  method ValidateAcknowledgements(batch: seq<Observation>, acks: seq<Acknowledgement>) returns (ok: bool)
    ensures ok <==> Trusted(batch, acks)
  {
    if |batch| == 0 || |batch| != |acks| {
      return false;
    }
    var seen: set<Key> := {};
    for i := 0 to |acks|
      invariant forall k :: k in seen <==> exists j :: 0 <= j < i && acks[j].key == k
      invariant forall j, k :: 0 <= j < k < i ==> acks[j].key != acks[k].key
      invariant forall j :: 0 <= j < i ==> Matches(batch[j], acks[j])
    {
      if acks[i].key in seen {
        return false;
      }
      seen := seen + {acks[i].key};
      var o, a := batch[i], acks[i];
      if a.key.scheduledAt - a.key.scheduledAt % 1000 != o.key.scheduledAt - o.key.scheduledAt % 1000 || a.key.id != o.key.id {
        return false;
      }
      match a.disposition {
        case Accepted | Duplicate =>
          if a.code != "" || a.retryable {
            return false;
          }
        case Rejected =>
          if a.code == "" || |a.details| > MAX_REJECTION_DETAILS_BYTES {
            return false;
          }
          if a.retryable && a.nextAttempt == ZERO_TIME {
            return false;
          }
        case Unknown(_) =>
          return false;
      }
    }
    return true;
  }

  ghost function RejectedBytes(rejected: map<Key, Rejection>): nat {
    if rejected == map[] then 0
    else
      var k :| k in rejected;
      |rejected[k].payload| + RejectedBytes(rejected - {k})
  }

  lemma {:induction false} RejectedBytesRemove(rejected: map<Key, Rejection>, k: Key)
    requires k in rejected
    ensures RejectedBytes(rejected) == |rejected[k].payload| + RejectedBytes(rejected - {k})
    decreases |rejected|
  {
    var j :| j in rejected && RejectedBytes(rejected) == |rejected[j].payload| + RejectedBytes(rejected - {j});
    if j != k {
      RejectedBytesRemove(rejected - {j}, k);
      RejectedBytesRemove(rejected - {k}, j);
      assert rejected - {j} - {k} == rejected - {k} - {j};
    }
  }

  /** The time of one of the keys, and later than none of their times by a whole second. */
  ghost predicate IsOldest(keys: set<Key>, t: Instant) {
    (exists k :: k in keys && k.scheduledAt == t) && forall k :: k in keys ==> Ready(t, k.scheduledAt) && Second(t) <= Second(k.scheduledAt)
  }

  /** MIN over the stored texts. */
  method Oldest(keys: set<Key>) returns (oldest: Option<Instant>)
    ensures oldest.None? <==> keys == {}
    ensures oldest.Some? ==> IsOldest(keys, oldest.value)
  {
    if keys == {} {
      return None;
    }
    BeforeIsStrictOrder();
    var first := Least(keys, Before);
    forall k | k in keys ensures Ready(first.scheduledAt, k.scheduledAt) && Second(first.scheduledAt) <= Second(k.scheduledAt) {
      FirstIsReady(first, k);
    }
    return Some(first.scheduledAt);
  }

  lemma FirstIsReady(a: Key, b: Key)
    requires a == b || Before(a, b)
    ensures Ready(a.scheduledAt, b.scheduledAt) && Second(a.scheduledAt) <= Second(b.scheduledAt)
  {
    var x, y := FormatTime(a.scheduledAt), FormatTime(b.scheduledAt);
    if TextLess(x, y) {
      TextLessAsymmetric(x, y);
    } else {
      TextLessIrreflexive(x);
    }
    ReadyWithinOneSecond(a.scheduledAt, b.scheduledAt);
  }

  class Store {
    var pending: map<Key, Observation>
    var rejected: map<Key, Rejection>
    var sync: Synchronization

    ghost function Db(): Database
      reads this
    {
      Database(pending, rejected, sync)
    }

    constructor ()
      ensures Db() == Database(map[], map[], Synchronization(None, None, 0, None))
    {
      pending, rejected, sync := map[], map[], Synchronization(None, None, 0, None);
    }

    method Totals() returns (count: nat, size: nat)
      ensures count == |pending| && size == Bytes(pending)
    {
      count, size := 0, 0;
      var rest := pending;
      while rest != map[]
        invariant count + |rest| == |pending| && size + Bytes(rest) == Bytes(pending)
        decreases |rest|
      {
        var k :| k in rest;
        BytesRemove(rest, k);
        assert rest.Keys == (rest - {k}).Keys + {k};
        count, size, rest := count + 1, size + |rest[k].payload|, rest - {k};
      }
    }

    method RejectedTotals() returns (count: nat, size: nat)
      ensures count == |rejected| && size == RejectedBytes(rejected)
    {
      count, size := 0, 0;
      var rest := rejected;
      while rest != map[]
        invariant count + |rest| == |rejected| && size + RejectedBytes(rest) == RejectedBytes(rejected)
        decreases |rest|
      {
        var k :| k in rest;
        RejectedBytesRemove(rest, k);
        assert rest.Keys == (rest - {k}).Keys + {k};
        count, size, rest := count + 1, size + |rest[k].payload|, rest - {k};
      }
    }

    method QueueStats() returns (count: nat, size: nat, oldest: Option<Instant>, rejectedCount: nat, rejectedSize: nat)
      ensures count == |pending| && size == Bytes(pending)
      ensures oldest.None? <==> pending == map[]
      ensures oldest.Some? ==> IsOldest(pending.Keys, oldest.value)
      ensures rejectedCount == |rejected| && rejectedSize == RejectedBytes(rejected)
    {
      count, size := Totals();
      rejectedCount, rejectedSize := RejectedTotals();
      oldest := Oldest(pending.Keys);
      assert pending.Keys == {} <==> pending == map[];
    }

    method ReadyObservations(now: Instant, limit: int) returns (r: Result<seq<Observation>, StoreError>)
      requires KeyedByIdentity(Db())
      ensures limit < 1 ==> r == Err(LimitsRequired)
      ensures limit >= 1 ==> r.Ok? && IsReadyList(Db(), now, limit, r.value)
    {
      if limit < 1 {
        return Err(LimitsRequired);
      }
      var keys := ReadyInOrder(pending, now, limit);
      var rows := ScanRows(pending, keys);
      assert forall i :: 0 <= i < |rows| ==> rows[i].key == keys[i];
      ListedRows(Db(), now, limit, keys, rows);
      return Ok(rows);
    }

    method EnqueueObservation(o: Observation, limits: Limits, clock: Instant) returns (r: Result<(), StoreError>)
      modifies this
      ensures match Enqueued(old(Db()), o, limits, clock)
              case Ok(after) => r == Ok(()) && Db() == after
              case Err(e) => r == Err(e) && Db() == old(Db())
    {
      if o.key.id == "" || o.monitor == "" || o.monitorRevision < 1 || o.configRevision < 1 || o.probeType == "" || |o.payload| == 0 {
        return Err(FieldsRequired);
      }
      if limits.maxCount < 1 || limits.maxBytes < 1 {
        return Err(LimitsRequired);
      }
      if o.key in pending {
        return if pending[o.key].payload == o.payload then Ok(()) else Err(ObservationConflict);
      }
      var count, size := Totals();
      if count + 1 > limits.maxCount || size + |o.payload| > limits.maxBytes {
        return Err(QueueFull);
      }
      var createdAt := if o.createdAt == ZERO_TIME then clock else o.createdAt;
      var nextAttempt := if o.nextAttempt == ZERO_TIME then createdAt else o.nextAttempt;
      pending := pending[o.key := o.(createdAt := createdAt, nextAttempt := nextAttempt, lastAttempt := None, lastError := None)];
      return Ok(());
    }

    method ApplyAcknowledgements(batch: seq<Observation>, acks: seq<Acknowledgement>, now: Instant)
      returns (r: Result<(), StoreError>)
      modifies this
      ensures match Acknowledged(old(Db()), batch, acks, now)
              case Ok(after) => r == Ok(()) && Db() == after
              case Err(e) => r == Err(e) && Db() == old(Db())
    {
      var trusted := ValidateAcknowledgements(batch, acks);
      if !trusted {
        return Err(UntrustedAcknowledgement);
      }
      // The transaction works on its own view and commits at the end.
      var p, q := pending, rejected;
      for i := 0 to |acks|
        invariant AppliedAll(Db(), batch[..i], acks[..i], now) == Ok(Database(p, q, sync))
        invariant Db() == old(Db())
      {
        ghost var before := Database(p, q, sync);
        assert batch[..i + 1][..i] == batch[..i] && acks[..i + 1][..i] == acks[..i];
        var o, a := batch[i], acks[i];
        if a.disposition.Accepted? || a.disposition.Duplicate? {
          p := p - {o.key};
        } else if a.disposition.Rejected? {
          if a.retryable {
            if o.key in p {
              var row := p[o.key];
              p := p[o.key := row.(attempts := row.attempts + 1, nextAttempt := a.nextAttempt, lastAttempt := Some(now), lastError := Some(a.code))];
            }
          } else {
            if o.key in q {
              FailureSticks(Db(), batch, acks, now, i + 1);
              return Err(KeyExists);
            }
            q := q[o.key := Rejection(o.payload, a.code, a.details, now)];
            p := p - {o.key};
          }
        }
        assert Applied(before, o, a, now) == Ok(Database(p, q, sync));
      }
      assert batch[..|acks|] == batch && acks[..|acks|] == acks;
      pending, rejected := p, q;
      sync := Synchronization(Some(now), Some(now), 0, None);
      return Ok(());
    }

    method QuarantineObservation(o: Observation, code: string, details: string, now: Instant)
      returns (r: Result<(), StoreError>)
      modifies this
      ensures match Quarantined(old(Db()), o, code, details, now)
              case Ok(after) => r == Ok(()) && Db() == after
              case Err(e) => r == Err(e) && Db() == old(Db())
    {
      if code == "" || |details| > MAX_REJECTION_DETAILS_BYTES {
        return Err(FieldsRequired);
      }
      if o.key !in pending {
        return Err(RowMissing);
      }
      if o.key in rejected {
        return Err(KeyExists);
      }
      rejected := rejected[o.key := Rejection(pending[o.key].payload, code, details, now)];
      pending := pending - {o.key};
      return Ok(());
    }

    method RecordSynchronizationFailure(backoffUntil: Instant)
      modifies this
      ensures Db() == FailureRecorded(old(Db()), backoffUntil)
    {
      sync := sync.(failures := sync.failures + 1, backoffUntil := Some(backoffUntil));
    }
  }

  /** Once a statement of the transaction fails, so does the transaction. */
  lemma {:induction false} FailureSticks(db: Database, batch: seq<Observation>, acks: seq<Acknowledgement>, now: Instant, i: nat)
    requires i <= |batch| == |acks| && AppliedAll(db, batch[..i], acks[..i], now).Err?
    ensures AppliedAll(db, batch, acks, now) == AppliedAll(db, batch[..i], acks[..i], now)
  {
    if i < |batch| {
      var n := |batch| - 1;
      assert batch[..n][..i] == batch[..i] && acks[..n][..i] == acks[..i];
      FailureSticks(db, batch[..n], acks[..n], now, i);
    } else {
      assert batch[..i] == batch && acks[..i] == acks;
    }
  }
}
