/**
Server-side ingestion of one upload: the observation table keyed by identity, the typed result
tables beside it, and the per-row answers.

The content hash and what the database accepts are parameters.  A row the upload schema admits may still be
refused by a column (an address that is missing or is no INET, a clock offset outside INTEGER); such a
failure rolls the whole upload back.
*/
module Ingest {
  import opened Options
  import opened TimeKeys
  import opened AgentStore
  import opened Upload

  const MAXIMUM_OBSERVATION_AGE := 30 * SECONDS_PER_DAY * NANOS_PER_SECOND
  const MAXIMUM_FUTURE_SKEW := 5 * 60 * NANOS_PER_SECOND

  datatype TypedResult =
    | NoResult
    | Tcp(address: Option<string>, fields: string)
    | Dns(resolver: Option<string>, fields: string)
    | Other(fields: string)

  /** A decoded observation of the upload. */
  datatype Wire = Wire(key: Key, monitor: string, monitorRevision: int, probeType: string, result: TypedResult, rest: string)

  datatype MonitorEntry = MonitorEntry(probeType: string, revision: int)

  /** The monitors of a configuration snapshot, by identifier. */
  type Configured = map<string, MonitorEntry>

  datatype Row = Row(hash: string, agent: string, configRevision: int, wire: Wire)

  datatype Tables = Tables(observations: map<Key, Row>, typed: map<Key, TypedResult>)

  /** Who is uploading, under which snapshot, when. */
  datatype Context = Context(agent: string, configRevision: int, configured: Configured, now: Instant)

  /** The content hash, and what the columns accept: observation rows, INET texts, the rest of typed rows. */
  datatype Backend = Backend(hash: Wire -> string, row: Wire -> bool, inet: string -> bool, result: TypedResult -> bool)

  /** The typed table takes the result.  TCP and DNS addresses are INET NOT NULL. */
  predicate ResultFits(db: Backend, r: TypedResult) {
    match r
    case NoResult => true
    case Tcp(address, _) => address.Some? && db.inet(address.value) && db.result(r)
    case Dns(resolver, _) => resolver.Some? && db.inet(resolver.value) && db.result(r)
    case Other(_) => db.result(r)
  }

  /** The permanent rejection code of an observation, if any. */
  function Refusal(c: Context, w: Wire): Option<string> {
    if w.monitor !in c.configured || c.configured[w.monitor].probeType != w.probeType then Some("monitor_not_in_configuration")
    else if c.configured[w.monitor].revision != w.monitorRevision then Some("monitor_revision_mismatch")
    else if w.key.scheduledAt < c.now - MAXIMUM_OBSERVATION_AGE then Some("observation_too_old")
    else if w.key.scheduledAt > c.now + MAXIMUM_FUTURE_SKEW then Some("observation_in_future")
    else None
  }

  function Refused(w: Wire, code: string, retryable: bool): RowAnswer {
    RowAnswer(w.key, Rejected, code, retryable)
  }

  function Inserted(t: Tables, c: Context, w: Wire, hash: string): Tables {
    Tables(t.observations[w.key := Row(hash, c.agent, c.configRevision, w)],
           if w.result.NoResult? then t.typed else t.typed[w.key := w.result])
  }

  /** The answer to one observation and the tables after it, or `None` when the database refuses. */
  ghost function One(t: Tables, c: Context, w: Wire, db: Backend): Option<(Tables, RowAnswer)> {
    var refusal := Refusal(c, w);
    if refusal.Some? then Some((t, Refused(w, refusal.value, false)))
    else if !db.row(w) then None
    else if w.key in t.observations then
      Some((t, if t.observations[w.key].hash == db.hash(w) then RowAnswer(w.key, Duplicate, "", false)
               else Refused(w, "idempotency_conflict", false)))
    else if !ResultFits(db, w.result) then None
    else Some((Inserted(t, c, w, db.hash(w)), RowAnswer(w.key, Accepted, "", false)))
  }

  ghost function All(t: Tables, c: Context, ws: seq<Wire>, db: Backend): Option<(Tables, seq<RowAnswer>)> {
    if ws == [] then Some((t, []))
    else
      var n := |ws| - 1;
      match All(t, c, ws[..n], db)
      case None => None
      case Some((before, answers)) =>
        match One(before, c, ws[n], db)
        case None => None
        case Some((after, answer)) => Some((after, answers + [answer]))
  }

  function Unavailable(ws: seq<Wire>): (answers: seq<RowAnswer>)
    ensures |answers| == |ws|
  {
    seq(|ws|, i requires 0 <= i < |ws| => Refused(ws[i], "configuration_revision_unavailable", true))
  }

  /** A whole upload.  `snapshots` are the uploading agent's, by revision. */
  ghost function Ingested(t: Tables, snapshots: map<int, Configured>, agent: string, revision: int, now: Instant,
                          ws: seq<Wire>, db: Backend): Option<(Tables, seq<RowAnswer>)>
  {
    if revision !in snapshots then Some((t, Unavailable(ws)))
    else All(t, Context(agent, revision, snapshots[revision], now), ws, db)
  }

  // ---------------------------------------------------------------- table invariants

  /** Rows sit under their own identity and hash; a typed row exists exactly beside a typed result. */
  ghost predicate Consistent(t: Tables, db: Backend) {
    && (forall k :: k in t.observations ==> t.observations[k].wire.key == k && t.observations[k].hash == db.hash(t.observations[k].wire))
    && (forall k :: k in t.typed <==> k in t.observations && !t.observations[k].wire.result.NoResult?)
    && (forall k :: k in t.typed ==> t.typed[k] == t.observations[k].wire.result)
  }

  /** Nothing stored is ever changed or removed. */
  ghost predicate Extends(before: Tables, after: Tables) {
    && (forall k :: k in before.observations ==> k in after.observations && after.observations[k] == before.observations[k])
    && (forall k :: k in before.typed ==> k in after.typed && after.typed[k] == before.typed[k])
  }

  lemma {:induction false} AllKeeps(t: Tables, c: Context, ws: seq<Wire>, db: Backend)
    requires Consistent(t, db) && All(t, c, ws, db).Some?
    ensures var (after, answers) := All(t, c, ws, db).value;
            Consistent(after, db) && Extends(t, after) && |answers| == |ws|
  {
    if ws != [] {
      AllKeeps(t, c, ws[..|ws| - 1], db);
    }
  }

  // ---------------------------------------------------------------- what the answers mean

  /** The snapshot has the monitor, with this probe type. */
  predicate InConfiguration(c: Context, w: Wire) {
    w.monitor in c.configured && c.configured[w.monitor].probeType == w.probeType
  }

  predicate AtRevision(c: Context, w: Wire) {
    w.monitor in c.configured && c.configured[w.monitor].revision == w.monitorRevision
  }

  /** Scheduled at most thirty days ago. */
  predicate NotTooOld(c: Context, w: Wire) {
    w.key.scheduledAt + 30 * 86_400 * 1_000_000_000 >= c.now
  }

  /** Scheduled at most five minutes ahead. */
  predicate NotAhead(c: Context, w: Wire) {
    w.key.scheduledAt <= c.now + 300 * 1_000_000_000
  }

  predicate Admissible(c: Context, w: Wire) {
    InConfiguration(c, w) && AtRevision(c, w) && NotTooOld(c, w) && NotAhead(c, w)
  }

  /** The code stands for the first of the four conditions to fail. */
  predicate Due(c: Context, w: Wire, code: string) {
    || (code == "monitor_not_in_configuration" && !InConfiguration(c, w))
    || (code == "monitor_revision_mismatch" && InConfiguration(c, w) && !AtRevision(c, w))
    || (code == "observation_too_old" && InConfiguration(c, w) && AtRevision(c, w) && !NotTooOld(c, w))
    || (code == "observation_in_future" && InConfiguration(c, w) && AtRevision(c, w) && NotTooOld(c, w) && !NotAhead(c, w))
  }

  lemma RefusalIsDue(c: Context, w: Wire)
    ensures Refusal(c, w).None? <==> Admissible(c, w)
    ensures Refusal(c, w).Some? ==> Due(c, w, Refusal(c, w).value)
  {
  }

  /** The answer to `w` and the tables the upload leaves behind, held against each other. */
  ghost predicate AnswerHolds(t: Tables, after: Tables, c: Context, w: Wire, a: RowAnswer, db: Backend) {
    && a.key == w.key && !a.retryable
    && (Admissible(c, w) ==> w.key in after.observations)
    && (a.disposition.Accepted? || a.disposition.Duplicate? <==>
          Admissible(c, w) && w.key in after.observations && after.observations[w.key].hash == db.hash(w))
    && (a.disposition.Accepted? || a.disposition.Duplicate? ==> db.row(w))
    && (a.disposition.Accepted? ==> w.key !in t.observations && after.observations[w.key] == Row(db.hash(w), c.agent, c.configRevision, w))
    && (a.disposition.Rejected? ==> if Admissible(c, w) then a.code == "idempotency_conflict" else Due(c, w, a.code))
    && (a.disposition.Rejected? || a.code == "") && !a.disposition.Unknown?
  }

  lemma {:induction false} AnswersAlign(t: Tables, c: Context, ws: seq<Wire>, db: Backend, i: nat)
    requires Consistent(t, db) && All(t, c, ws, db).Some? && i < |ws|
    ensures var (after, answers) := All(t, c, ws, db).value;
            |answers| == |ws| && AnswerHolds(t, after, c, ws[i], answers[i], db)
  {
    var n := |ws| - 1;
    AllKeeps(t, c, ws, db);
    AllKeeps(t, c, ws[..n], db);
    var (before, answers) := All(t, c, ws[..n], db).value;
    if i < n {
      AnswersAlign(t, c, ws[..n], db, i);
      assert One(before, c, ws[n], db).Some?;
      AnswerStillHolds(t, before, c, ws[i], answers[i], ws[n], db);
    } else {
      AnswerOfOne(t, before, c, ws[n], db);
    }
  }

  /** The answer to the last row, from the tables before the upload. */
  lemma AnswerOfOne(t: Tables, before: Tables, c: Context, w: Wire, db: Backend)
    requires Extends(t, before) && Consistent(before, db) && One(before, c, w, db).Some?
    ensures var (after, a) := One(before, c, w, db).value; AnswerHolds(t, after, c, w, a, db)
  {
    RefusalIsDue(c, w);
  }

  /** One row more leaves what was answered true. */
  lemma AnswerStillHolds(t: Tables, before: Tables, c: Context, w: Wire, a: RowAnswer, next: Wire, db: Backend)
    requires AnswerHolds(t, before, c, w, a, db) && One(before, c, next, db).Some?
    requires Admissible(c, w) ==> w.key in before.observations
    ensures AnswerHolds(t, One(before, c, next, db).value.0, c, w, a, db)
  {
  }

  /** Every upload is answered row by row in request order, and an answer tells what is stored. */
  lemma IngestAnswers(t: Tables, snapshots: map<int, Configured>, agent: string, revision: int, now: Instant,
                      ws: seq<Wire>, db: Backend)
    requires Consistent(t, db) && Ingested(t, snapshots, agent, revision, now, ws, db).Some?
    ensures var (after, answers) := Ingested(t, snapshots, agent, revision, now, ws, db).value;
            && Consistent(after, db) && Extends(t, after) && |answers| == |ws|
            && (revision !in snapshots ==> after == t)
            && forall i :: 0 <= i < |ws| ==>
                 if revision in snapshots
                 then AnswerHolds(t, after, Context(agent, revision, snapshots[revision], now), ws[i], answers[i], db)
                 else answers[i] == Refused(ws[i], "configuration_revision_unavailable", true)
  {
    if revision in snapshots {
      var c := Context(agent, revision, snapshots[revision], now);
      AllKeeps(t, c, ws, db);
      forall i | 0 <= i < |ws|
        ensures AnswerHolds(t, All(t, c, ws, db).value.0, c, ws[i], All(t, c, ws, db).value.1[i], db)
      {
        AnswersAlign(t, c, ws, db, i);
      }
    }
  }

  /** Only rows of the upload can appear. */
  lemma {:induction false} NewRowsAreUploaded(t: Tables, c: Context, ws: seq<Wire>, db: Backend, k: Key)
    requires All(t, c, ws, db).Some?
    requires k in All(t, c, ws, db).value.0.observations && k !in t.observations
    ensures exists i :: 0 <= i < |ws| && ws[i].key == k && All(t, c, ws, db).value.0.observations[k] == Row(db.hash(ws[i]), c.agent, c.configRevision, ws[i])
  {
    if ws != [] {
      var n := |ws| - 1;
      var before := All(t, c, ws[..n], db).value.0;
      if k in before.observations {
        NewRowsAreUploaded(t, c, ws[..n], db, k);
        var i :| 0 <= i < n && ws[..n][i].key == k && before.observations[k] == Row(db.hash(ws[..n][i]), c.agent, c.configRevision, ws[..n][i]);
        assert ws[i].key == k;
      }
    }
  }

  // ---------------------------------------------------------------- replay

  /** An observation the server has answered as stored. */
  ghost predicate Stored(t: Tables, w: Wire, db: Backend) {
    w.key in t.observations && t.observations[w.key].hash == db.hash(w)
  }

  /** Splitting an upload changes nothing: the parts ingested in order at one time give the whole. */
  lemma {:induction false} IngestConcatenation(t: Tables, c: Context, xs: seq<Wire>, ys: seq<Wire>, db: Backend)
    ensures All(t, c, xs + ys, db) ==
              match All(t, c, xs, db)
              case None => None
              case Some((middle, a)) =>
                match All(middle, c, ys, db)
                case None => None
                case Some((after, b)) => Some((after, a + b))
  {
    if ys == [] {
      assert xs + ys == xs;
      if All(t, c, xs, db).Some? {
        var a := All(t, c, xs, db).value.1;
        assert a + [] == a;
      }
    } else {
      var n := |ys| - 1;
      assert (xs + ys)[..|xs + ys| - 1] == xs + ys[..n];
      IngestConcatenation(t, c, xs, ys[..n], db);
      if All(t, c, xs, db).Some? {
        var (middle, a) := All(t, c, xs, db).value;
        if All(middle, c, ys[..n], db).Some? {
          var b := All(middle, c, ys[..n], db).value.1;
          assert forall x: RowAnswer :: (a + b) + [x] == a + (b + [x]);
        }
      }
    }
  }

  /** The answer to an observation already stored. */
  function ReplayAnswer(d: Context, w: Wire): RowAnswer {
    if Refusal(d, w).Some? then Refused(w, Refusal(d, w).value, false) else RowAnswer(w.key, Duplicate, "", false)
  }

  /** The answers with one more at position `i`. */
  function WithAnswer(answers: seq<RowAnswer>, i: nat, a: RowAnswer): seq<RowAnswer> {
    if i <= |answers| then answers[..i] + [a] + answers[i..] else answers + [a]
  }

  /**
  A stored observation in the middle of any later upload, by whatever agent under whatever snapshot, adds
  nothing to it: the tables come out as if it had been left out, and so do the other answers.
  */
  lemma ReplayAddsNothing(t: Tables, d: Context, xs: seq<Wire>, w: Wire, ys: seq<Wire>, db: Backend)
    requires Consistent(t, db) && Stored(t, w, db) && db.row(w)
    ensures All(t, d, xs + [w] + ys, db) ==
              match All(t, d, xs + ys, db)
              case None => None
              case Some((after, a)) => Some((after, WithAnswer(a, |xs|, ReplayAnswer(d, w))))
  {
    IngestConcatenation(t, d, xs + [w], ys, db);
    IngestConcatenation(t, d, xs, [w], db);
    IngestConcatenation(t, d, xs, ys, db);
    if All(t, d, xs, db).Some? {
      AllKeeps(t, d, xs, db);
      var (middle, a) := All(t, d, xs, db).value;
      JustOne(middle, d, w, db);
      assert One(middle, d, w, db) == Some((middle, ReplayAnswer(d, w)));
      if All(middle, d, ys, db).Some? {
        var b := All(middle, d, ys, db).value.1;
        assert (a + b)[..|xs|] == a && (a + b)[|xs|..] == b;
      }
    }
  }

  lemma JustOne(t: Tables, c: Context, w: Wire, db: Backend)
    ensures All(t, c, [w], db) ==
              match One(t, c, w, db)
              case None => None
              case Some((after, answer)) => Some((after, [answer]))
  {
    assert [w][..0] == [];
    assert All(t, c, [], db) == Some((t, []));
    if One(t, c, w, db).Some? {
      assert [] + [One(t, c, w, db).value.1] == [One(t, c, w, db).value.1];
    }
  }

  /** The upload `us` answered row `i` accepted or duplicate. */
  ghost predicate AnswersStored(t: Tables, c: Context, us: seq<Wire>, i: nat, db: Backend) {
    && Consistent(t, db) && All(t, c, us, db).Some? && i < |us| && i < |All(t, c, us, db).value.1|
    && (All(t, c, us, db).value.1[i].disposition.Accepted? || All(t, c, us, db).value.1[i].disposition.Duplicate?)
  }

  lemma AnsweredIsStored(t: Tables, c: Context, us: seq<Wire>, i: nat, later: Tables, db: Backend)
    requires AnswersStored(t, c, us, i, db) && Extends(All(t, c, us, db).value.0, later)
    ensures Stored(later, us[i], db) && db.row(us[i]) && Refusal(c, us[i]).None?
  {
    AnswersAlign(t, c, us, db, i);
    RefusalIsDue(c, us[i]);
  }

  /**
  Once an upload answered `us[i]` accepted or duplicate, every later upload that carries it again, anywhere
  among other rows, commits exactly when it would without it, with the same tables and the same other
  answers.  Under the same snapshot the answer is duplicate, or too old.
  */
  lemma ReplayIsHarmless(t: Tables, c: Context, us: seq<Wire>, i: nat, later: Tables, d: Context, xs: seq<Wire>, ys: seq<Wire>, db: Backend)
    requires AnswersStored(t, c, us, i, db) && Consistent(later, db) && Extends(All(t, c, us, db).value.0, later)
    ensures Stored(later, us[i], db)
    ensures All(later, d, xs + [us[i]] + ys, db) ==
              match All(later, d, xs + ys, db)
              case None => None
              case Some((after, a)) => Some((after, WithAnswer(a, |xs|, ReplayAnswer(d, us[i]))))
    ensures d.configured == c.configured && d.now >= c.now ==>
              ReplayAnswer(d, us[i]) == if us[i].key.scheduledAt < d.now - MAXIMUM_OBSERVATION_AGE
                                        then Refused(us[i], "observation_too_old", false) else RowAnswer(us[i].key, Duplicate, "", false)
  {
    AnsweredIsStored(t, c, us, i, later, db);
    ReplayAddsNothing(later, d, xs, us[i], ys, db);
  }

  /** A batch of replayed observations leaves every table as it was. */
  lemma {:induction false} ReplayedBatch(t: Tables, d: Context, ws: seq<Wire>, db: Backend)
    requires forall i :: 0 <= i < |ws| ==> Stored(t, ws[i], db) && db.row(ws[i])
    ensures All(t, d, ws, db).Some? && All(t, d, ws, db).value.0 == t
    ensures forall i :: 0 <= i < |ws| ==>
              var a := All(t, d, ws, db).value.1;
              |a| == |ws| && a[i] == ReplayAnswer(d, ws[i])
  {
    if ws != [] {
      ReplayedBatch(t, d, ws[..|ws| - 1], db);
    }
  }

  // ---------------------------------------------------------------- rolled-back uploads

  /** The database refuses `ws[i]`: its observation row whenever it is tried, its typed row when the observation is new. */
  ghost predicate Breaks(t: Tables, c: Context, ws: seq<Wire>, db: Backend, i: nat) {
    && i < |ws| && Refusal(c, ws[i]).None?
    && (|| !db.row(ws[i])
        || (&& !ResultFits(db, ws[i].result) && ws[i].key !in t.observations
            && forall j :: 0 <= j < i ==> Refusal(c, ws[j]).Some? || ws[j].key != ws[i].key))
  }

  lemma {:induction false} KeysAfter(t: Tables, c: Context, ws: seq<Wire>, db: Backend, k: Key)
    requires All(t, c, ws, db).Some?
    ensures k in All(t, c, ws, db).value.0.observations <==>
              k in t.observations || exists j :: 0 <= j < |ws| && Refusal(c, ws[j]).None? && ws[j].key == k
  {
    if ws != [] {
      var n := |ws| - 1;
      KeysAfter(t, c, ws[..n], db, k);
      if j :| 0 <= j < n && Refusal(c, ws[..n][j]).None? && ws[..n][j].key == k {
        assert Refusal(c, ws[j]).None? && ws[j].key == k;
      }
    }
  }

  // ---------------------------------------------------------------- which answer is due

  /** Nothing is stored under the identity of `ws[i]` when its turn comes. */
  ghost predicate ComesFirst(t: Tables, c: Context, ws: seq<Wire>, i: nat)
    requires i < |ws|
  {
    ws[i].key !in t.observations && forall j :: 0 <= j < i ==> !Admissible(c, ws[j]) || ws[j].key != ws[i].key
  }

  predicate RejectedAs(a: RowAnswer, code: string) {
    a.disposition.Rejected? && a.code == code
  }

  /** The answer to `ws[i]`: each of the codes exactly when its condition is the first to fail. */
  ghost predicate AnswerDue(t: Tables, after: Tables, c: Context, ws: seq<Wire>, i: nat, a: RowAnswer, db: Backend)
    requires i < |ws|
  {
    var w := ws[i];
    && a.key == w.key && !a.retryable
    && (RejectedAs(a, "monitor_not_in_configuration") <==> !InConfiguration(c, w))
    && (RejectedAs(a, "monitor_revision_mismatch") <==> InConfiguration(c, w) && !AtRevision(c, w))
    && (RejectedAs(a, "observation_too_old") <==> InConfiguration(c, w) && AtRevision(c, w) && !NotTooOld(c, w))
    && (RejectedAs(a, "observation_in_future") <==> InConfiguration(c, w) && AtRevision(c, w) && NotTooOld(c, w) && !NotAhead(c, w))
    && (Admissible(c, w) ==> w.key in after.observations)
    && (a.disposition.Accepted? <==> Admissible(c, w) && ComesFirst(t, c, ws, i))
    && (a.disposition.Accepted? ==> after.observations[w.key] == Row(db.hash(w), c.agent, c.configRevision, w))
    && (a.disposition.Duplicate? <==> Admissible(c, w) && !ComesFirst(t, c, ws, i) && after.observations[w.key].hash == db.hash(w))
    && (RejectedAs(a, "idempotency_conflict") <==> Admissible(c, w) && after.observations[w.key].hash != db.hash(w))
  }

  /** The upload up to row `i`, and the rest of it, which leaves stored rows alone. */
  lemma {:induction false} Prefix(t: Tables, c: Context, ws: seq<Wire>, db: Backend, i: nat)
    requires i < |ws| && All(t, c, ws, db).Some?
    ensures All(t, c, ws[..i], db).Some? && |All(t, c, ws, db).value.1| == |ws|
    ensures var before := All(t, c, ws[..i], db).value.0;
            var (after, answers) := All(t, c, ws, db).value;
            && One(before, c, ws[i], db).Some? && answers[i] == One(before, c, ws[i], db).value.1
            && forall k :: k in One(before, c, ws[i], db).value.0.observations ==>
                 k in after.observations && after.observations[k] == One(before, c, ws[i], db).value.0.observations[k]
  {
    var n := |ws| - 1;
    if i < n {
      Prefix(t, c, ws[..n], db, i);
      assert ws[..n][..i] == ws[..i];
    } else if n > 0 {
      Prefix(t, c, ws[..n], db, n - 1);
    }
  }

  /** The answer of one row, given whether something is stored under its identity. */
  lemma OneIsDue(before: Tables, c: Context, w: Wire, db: Backend)
    requires One(before, c, w, db).Some?
    ensures var (after, a) := One(before, c, w, db).value;
            && a.key == w.key && !a.retryable
            && (RejectedAs(a, "monitor_not_in_configuration") <==> !InConfiguration(c, w))
            && (RejectedAs(a, "monitor_revision_mismatch") <==> InConfiguration(c, w) && !AtRevision(c, w))
            && (RejectedAs(a, "observation_too_old") <==> InConfiguration(c, w) && AtRevision(c, w) && !NotTooOld(c, w))
            && (RejectedAs(a, "observation_in_future") <==> InConfiguration(c, w) && AtRevision(c, w) && NotTooOld(c, w) && !NotAhead(c, w))
            && (Admissible(c, w) ==> w.key in after.observations)
            && (a.disposition.Accepted? <==> Admissible(c, w) && w.key !in before.observations)
            && (a.disposition.Accepted? ==> after.observations[w.key] == Row(db.hash(w), c.agent, c.configRevision, w))
            && (a.disposition.Duplicate? <==> Admissible(c, w) && w.key in before.observations && after.observations[w.key].hash == db.hash(w))
            && (RejectedAs(a, "idempotency_conflict") <==> Admissible(c, w) && after.observations[w.key].hash != db.hash(w))
  {
  }

  lemma ComesFirstIff(t: Tables, c: Context, ws: seq<Wire>, db: Backend, i: nat)
    requires i < |ws| && All(t, c, ws[..i], db).Some?
    ensures ComesFirst(t, c, ws, i) <==> ws[i].key !in All(t, c, ws[..i], db).value.0.observations
  {
    KeysAfter(t, c, ws[..i], db, ws[i].key);
    forall j | 0 <= j < i ensures Refusal(c, ws[..i][j]).None? <==> Admissible(c, ws[j]) {
      RefusalIsDue(c, ws[j]);
    }
  }

  /**
  The answer to each row of an upload is determined by the snapshot, the clock, what was stored before and
  the rows ahead of it; only an observation of a configured monitor, at its revision and within the time
  window, is stored.
  */
  lemma AnswerIsDue(t: Tables, c: Context, ws: seq<Wire>, db: Backend, i: nat)
    requires i < |ws| && All(t, c, ws, db).Some?
    ensures var (after, answers) := All(t, c, ws, db).value;
            |answers| == |ws| && AnswerDue(t, after, c, ws, i, answers[i], db)
  {
    Prefix(t, c, ws, db, i);
    ComesFirstIff(t, c, ws, db, i);
    OneIsDue(All(t, c, ws[..i], db).value.0, c, ws[i], db);
  }

  lemma AnswersAreDue(t: Tables, c: Context, ws: seq<Wire>, db: Backend)
    requires All(t, c, ws, db).Some?
    ensures var (after, answers) := All(t, c, ws, db).value;
            |answers| == |ws| && forall i :: 0 <= i < |ws| ==> AnswerDue(t, after, c, ws, i, answers[i], db)
  {
    if ws != [] {
      Prefix(t, c, ws, db, 0);
    }
    forall i | 0 <= i < |ws| ensures AnswerDue(t, All(t, c, ws, db).value.0, c, ws, i, All(t, c, ws, db).value.1[i], db) {
      AnswerIsDue(t, c, ws, db, i);
    }
  }

  /** A row the database refuses, and nothing else, decides whether an upload is rolled back. */
  lemma {:induction false} RolledBackIff(t: Tables, c: Context, ws: seq<Wire>, db: Backend)
    ensures All(t, c, ws, db).None? <==> exists i :: Breaks(t, c, ws, db, i)
  {
    if ws != [] {
      var n := |ws| - 1;
      RolledBackIff(t, c, ws[..n], db);
      if All(t, c, ws[..n], db).None? {
        var i :| Breaks(t, c, ws[..n], db, i);
        assert Breaks(t, c, ws, db, i);
      } else {
        var before := All(t, c, ws[..n], db).value.0;
        KeysAfter(t, c, ws[..n], db, ws[n].key);
        forall i: nat | Breaks(t, c, ws, db, i) && i < n ensures false {
          assert Breaks(t, c, ws[..n], db, i);
        }
        if One(before, c, ws[n], db).None? {
          assert Breaks(t, c, ws, db, n);
        }
      }
    }
  }

  /** Uploading the same batch again does not help: it is rolled back until its bad row expires. */
  lemma RollbackRepeats(t: Tables, c: Context, ws: seq<Wire>, db: Backend, later: Tables, d: Context, i: nat)
    requires Breaks(t, c, ws, db, i) && (db.row(ws[i]) ==> ws[i].key !in later.observations)
    requires d.configured == c.configured
    requires forall j :: 0 <= j <= i ==> (Refusal(d, ws[j]).Some? <==> Refusal(c, ws[j]).Some?)
    ensures All(later, d, ws, db).None?
  {
    assert Breaks(later, d, ws, db, i);
    RolledBackIff(later, d, ws, db);
  }

  function Probe(id: string, address: Option<string>): Wire {
    Wire(Key(0, id), "m", 1, "tcp", Tcp(address, ""), "")
  }

  /** An upload of two TCP results: a good one is lost with one whose address is missing, or is no address. */
  lemma BadAddressAbortsUpload(db: Backend, address: Option<string>, good: string)
    requires db.row(Probe("good", Some(good))) && ResultFits(db, Tcp(Some(good), ""))
    requires address == None || (address == Some("zz") && !db.inet("zz"))
    ensures var c := Context("agent", 1, map["m" := MonitorEntry("tcp", 1)], 0);
            var t := Tables(map[], map[]);
            && All(t, c, [Probe("good", Some(good))], db).Some?
            && All(t, c, [Probe("good", Some(good)), Probe("bad", address)], db).None?
  {
    var c := Context("agent", 1, map["m" := MonitorEntry("tcp", 1)], 0);
    var t := Tables(map[], map[]);
    var ws := [Probe("good", Some(good)), Probe("bad", address)];
    JustOne(t, c, ws[0], db);
    assert Breaks(t, c, ws, db, 1);
    RolledBackIff(t, c, ws, db);
  }

  // ---------------------------------------------------------------- the server's loop

  class ObservationTables {
    var observations: map<Key, Row>
    var typed: map<Key, TypedResult>

    ghost function Value(): Tables
      reads this
    {
      Tables(observations, typed)
    }

    constructor ()
      ensures Value() == Tables(map[], map[])
    {
      observations, typed := map[], map[];
    }

    method IngestObservations(snapshots: map<int, Configured>, agent: string, revision: int, now: Instant,
                              ws: seq<Wire>, db: Backend) returns (r: Option<seq<RowAnswer>>)
      modifies this
      ensures match Ingested(old(Value()), snapshots, agent, revision, now, ws, db)
              case Some((after, answers)) => r == Some(answers) && Value() == after
              case None => r == None && Value() == old(Value())
      ensures revision in snapshots && r.Some? ==>
                && |r.value| == |ws|
                && forall i :: 0 <= i < |ws| ==>
                     AnswerDue(old(Value()), Value(), Context(agent, revision, snapshots[revision], now), ws, i, r.value[i], db)
      ensures revision !in snapshots ==>
                && r.Some? && |r.value| == |ws| && Value() == old(Value())
                && forall i :: 0 <= i < |ws| ==> r.value[i] == RowAnswer(ws[i].key, Rejected, "configuration_revision_unavailable", true)
    {
      if revision !in snapshots {
        return Some(Unavailable(ws));
      }
      var c := Context(agent, revision, snapshots[revision], now);
      var rows, results, answers := observations, typed, [];
      for i := 0 to |ws|
        invariant Value() == old(Value())
        invariant All(Value(), c, ws[..i], db) == Some((Tables(rows, results), answers))
      {
        var w := ws[i];
        assert ws[..i + 1][..i] == ws[..i];
        var refusal := Refusal(c, w);
        if refusal.Some? {
          answers := answers + [Refused(w, refusal.value, false)];
          continue;
        }
        var contentHash := db.hash(w);
        if !db.row(w) {
          AbortSticks(Value(), c, ws, db, i + 1);
          return None;
        }
        if w.key in rows {
          if rows[w.key].hash == contentHash {
            answers := answers + [RowAnswer(w.key, Duplicate, "", false)];
          } else {
            answers := answers + [Refused(w, "idempotency_conflict", false)];
          }
          continue;
        }
        if !ResultFits(db, w.result) {
          AbortSticks(Value(), c, ws, db, i + 1);
          return None;
        }
        rows := rows[w.key := Row(contentHash, agent, revision, w)];
        if !w.result.NoResult? {
          results := results[w.key := w.result];
        }
        answers := answers + [RowAnswer(w.key, Accepted, "", false)];
      }
      assert ws[..|ws|] == ws;
      AnswersAreDue(old(Value()), c, ws, db);
      observations, typed := rows, results;
      return Some(answers);
    }
  }

  lemma {:induction false} AbortSticks(t: Tables, c: Context, ws: seq<Wire>, db: Backend, i: nat)
    requires i <= |ws| && All(t, c, ws[..i], db).None?
    ensures All(t, c, ws, db).None?
  {
    if i < |ws| {
      assert ws[..|ws| - 1][..i] == ws[..i];
      AbortSticks(t, c, ws[..|ws| - 1], db, i);
    } else {
      assert ws[..i] == ws;
    }
  }
}
