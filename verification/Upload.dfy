/**
The uploader: building a bounded batch from the ready rows, retry delays, and one upload call from
reading the queue to applying the response.

The batch identifier, the random fractions, the clock, JSON validity and JSON compaction of a stored
payload are parameters, and so is the control plane: a function from the request body to what the
HTTP exchange yields.
*/
module Upload {
  import opened Options
  import opened TimeKeys
  import opened AgentStore
  import opened Numerals
  import opened UploadText

  const PROTOCOL_VERSION := 1
  const RESULT_SCHEMA_VERSION := 1
  const MAX_BATCH_OBSERVATIONS := 500
  const MAX_BATCH_BYTES := 1_048_576
  const INITIAL_RETRY_DELAY := NANOS_PER_SECOND
  const MAXIMUM_RETRY_DELAY := 300 * NANOS_PER_SECOND

  /** An instant early enough that a retry delay later is still a four-digit year. */
  type Clock = t: Instant | t < SECONDS * NANOS_PER_SECOND - MAXIMUM_RETRY_DELAY

  // ---------------------------------------------------------------- retry delays

  function Pow2(n: nat): (p: nat)
    ensures p >= 1
  {
    if n == 0 then 1 else 2 * Pow2(n - 1)
  }

  function Min(a: int, b: int): int {
    if a <= b then a else b
  }

  /** The window the random fraction scales: exponential from one second, capped. */
  function Window(failureCount: int): (w: nat)
    ensures w <= MAXIMUM_RETRY_DELAY
  {
    var count := if failureCount < 1 then 1 else failureCount;
    Min(INITIAL_RETRY_DELAY * Pow2(Min(count - 1, 30)), MAXIMUM_RETRY_DELAY)
  }

  /** Nanoseconds.  Counts and delays are int64; the fraction is a real. */
  function RetryDelay(failureCount: int, serverRetryAfter: int, randomFraction: real): int {
    Jittered(Window(failureCount), serverRetryAfter, randomFraction)
  }

  function Jittered(window: nat, serverRetryAfter: int, randomFraction: real): int {
    var fraction := if randomFraction < 0.0 then 0.0 else if randomFraction > 1.0 then 1.0 else randomFraction;
    var delay := (window as real * fraction).Floor;
    Min(if serverRetryAfter > delay then serverRetryAfter else delay, MAXIMUM_RETRY_DELAY)
  }

  lemma {:induction false} Pow2Bound(n: nat, m: nat)
    requires n <= m
    ensures Pow2(n) <= Pow2(m)
  {
    if n < m {
      Pow2Bound(n, m - 1);
    }
  }

  lemma JitterRange(maximum: nat, fraction: real)
    requires 0.0 <= fraction <= 1.0
    ensures 0 <= (maximum as real * fraction).Floor <= maximum
  {
    var x := maximum as real * fraction;
    assert 0.0 <= x by { assert 0.0 * fraction <= maximum as real * fraction; }
    assert x <= maximum as real by { assert maximum as real * fraction <= maximum as real * 1.0; }
  }

  /**
  For every failure count, server delay and fraction the delay lies between zero and five minutes,
  honours the server up to the cap, and without server guidance stays inside the window.
  */
  lemma RetryDelayRange(failureCount: int, serverRetryAfter: int, randomFraction: real)
    ensures 0 <= RetryDelay(failureCount, serverRetryAfter, randomFraction) <= MAXIMUM_RETRY_DELAY
    ensures RetryDelay(failureCount, serverRetryAfter, randomFraction) >= Min(serverRetryAfter, MAXIMUM_RETRY_DELAY)
    ensures serverRetryAfter <= 0 ==> RetryDelay(failureCount, serverRetryAfter, randomFraction) <= Window(failureCount)
  {
    JitteredRange(Window(failureCount), serverRetryAfter, randomFraction);
  }

  /** The random fraction scales the window: none of it at zero, all of it at one, and never less for more. */
  lemma RetryDelayEnds(failureCount: int, serverRetryAfter: int, f: real, g: real)
    requires serverRetryAfter <= 0
    ensures f <= 0.0 ==> RetryDelay(failureCount, serverRetryAfter, f) == 0
    ensures f >= 1.0 ==> RetryDelay(failureCount, serverRetryAfter, f) == Window(failureCount)
    ensures 0.0 <= f <= 1.0 ==>
              var d := RetryDelay(failureCount, serverRetryAfter, f) as real;
              d <= Window(failureCount) as real * f < d + 1.0
    ensures f <= g ==> RetryDelay(failureCount, serverRetryAfter, f) <= RetryDelay(failureCount, serverRetryAfter, g)
  {
    JitteredEnds(Window(failureCount), serverRetryAfter, f);
    JitteredEnds(Window(failureCount), serverRetryAfter, g);
    JitteredGrows(Window(failureCount), serverRetryAfter, f, g);
  }

  lemma JitteredEnds(window: nat, serverRetryAfter: int, f: real)
    requires window <= MAXIMUM_RETRY_DELAY && serverRetryAfter <= 0
    ensures f <= 0.0 ==> Jittered(window, serverRetryAfter, f) == 0
    ensures f >= 1.0 ==> Jittered(window, serverRetryAfter, f) == window
    ensures 0.0 <= f <= 1.0 ==> Jittered(window, serverRetryAfter, f) as real <= window as real * f < Jittered(window, serverRetryAfter, f) as real + 1.0
  {
    var fraction := if f < 0.0 then 0.0 else if f > 1.0 then 1.0 else f;
    JitterRange(window, fraction);
    assert window as real * 0.0 == 0.0 && window as real * 1.0 == window as real;
  }

  lemma JitteredGrows(window: nat, serverRetryAfter: int, f: real, g: real)
    requires window <= MAXIMUM_RETRY_DELAY && serverRetryAfter <= 0
    ensures f <= g ==> Jittered(window, serverRetryAfter, f) <= Jittered(window, serverRetryAfter, g)
  {
    var a := if f < 0.0 then 0.0 else if f > 1.0 then 1.0 else f;
    var b := if g < 0.0 then 0.0 else if g > 1.0 then 1.0 else g;
    if f <= g {
      assert a <= b;
      JitteredIs(window, serverRetryAfter, f, a);
      JitteredIs(window, serverRetryAfter, g, b);
      FloorGrows(window as real, a, b);
    }
  }

  lemma JitteredIs(window: nat, serverRetryAfter: int, f: real, fraction: real)
    requires window <= MAXIMUM_RETRY_DELAY && serverRetryAfter <= 0
    requires fraction == if f < 0.0 then 0.0 else if f > 1.0 then 1.0 else f
    ensures Jittered(window, serverRetryAfter, f) == (window as real * fraction).Floor
  {
    JitterRange(window, fraction);
  }

  lemma FloorGrows(w: real, a: real, b: real)
    requires w >= 0.0 && a <= b
    ensures (w * a).Floor <= (w * b).Floor
  {
    var x, y := w * a, w * b;
    assert y - x == w * (b - a) >= 0.0;
    assert x <= y;
  }

  /** The server decides once it asks for more than the window. */
  lemma ServerDelayWins(failureCount: int, serverRetryAfter: int, randomFraction: real)
    requires serverRetryAfter >= Window(failureCount)
    ensures RetryDelay(failureCount, serverRetryAfter, randomFraction) == Min(serverRetryAfter, MAXIMUM_RETRY_DELAY)
  {
    JitteredServerWins(Window(failureCount), serverRetryAfter, randomFraction);
  }

  lemma JitteredServerWins(window: nat, serverRetryAfter: int, randomFraction: real)
    requires serverRetryAfter >= window
    ensures Jittered(window, serverRetryAfter, randomFraction) == Min(serverRetryAfter, MAXIMUM_RETRY_DELAY)
  {
    var fraction := if randomFraction < 0.0 then 0.0 else if randomFraction > 1.0 then 1.0 else randomFraction;
    JitterRange(window, fraction);
    var delay := (window as real * fraction).Floor;
    assert Jittered(window, serverRetryAfter, randomFraction) == Min(if serverRetryAfter > delay then serverRetryAfter else delay, MAXIMUM_RETRY_DELAY);
  }

  lemma JitteredRange(window: nat, serverRetryAfter: int, randomFraction: real)
    requires window <= MAXIMUM_RETRY_DELAY
    ensures 0 <= Jittered(window, serverRetryAfter, randomFraction) <= MAXIMUM_RETRY_DELAY
    ensures Jittered(window, serverRetryAfter, randomFraction) >= Min(serverRetryAfter, MAXIMUM_RETRY_DELAY)
    ensures serverRetryAfter <= 0 ==> Jittered(window, serverRetryAfter, randomFraction) <= window
  {
    var fraction := if randomFraction < 0.0 then 0.0 else if randomFraction > 1.0 then 1.0 else randomFraction;
    JitterRange(window, fraction);
  }

  /** The window never shrinks as failures repeat, and its product stays inside int64. */
  lemma WindowGrows(a: int, b: int)
    requires a <= b
    ensures Window(a) <= Window(b)
    ensures INITIAL_RETRY_DELAY * Pow2(Min((if a < 1 then 1 else a) - 1, 30)) < 0x8000_0000_0000_0000
  {
    var e := Min((if a < 1 then 1 else a) - 1, 30);
    Pow2Bound(e, Min((if b < 1 then 1 else b) - 1, 30));
    var thirty := 30;
    Pow2Bound(e, thirty);
    Pow2At30(thirty);
  }

  /** One second at first; then every failure doubles the window until it reaches the cap. */
  lemma WindowDoubles(failureCount: int)
    ensures failureCount <= 1 ==> Window(failureCount) == INITIAL_RETRY_DELAY
    ensures failureCount >= 1 ==> Window(failureCount + 1) == Min(2 * Window(failureCount), MAXIMUM_RETRY_DELAY)
  {
    if failureCount >= 1 {
      var e := Min(failureCount - 1, 30);
      if failureCount - 1 >= 30 {
        Pow2At30(e);
      } else {
        assert Pow2(e + 1) == 2 * Pow2(e);
      }
    }
  }

  lemma Pow2At30(thirty: nat)
    requires thirty == 30
    ensures Pow2(thirty) == 1_073_741_824
  {
    assert Pow2(5) == 32;
    assert Pow2(10) == 1024;
    assert Pow2(15) == 32_768;
    assert Pow2(20) == 1_048_576;
    assert Pow2(25) == 33_554_432;
  }

  // ---------------------------------------------------------------- the request body

  function Payloads(rows: seq<Observation>, compact: string -> string): (parts: seq<string>)
    ensures |parts| == |rows|
  {
    seq(|rows|, i requires 0 <= i < |rows| => compact(rows[i].payload))
  }

  /** The upload as JSON, member by member. */
  function Serialize(revision: int, batchId: string, rows: seq<Observation>, compact: string -> string): string {
    "{" + Joined(Members(revision, batchId, "[" + Joined(Payloads(rows, compact)) + "]")) + "}"
  }

  function Members(revision: int, batchId: string, observations: string): seq<string> {
    [Member("protocol_version", Decimal(PROTOCOL_VERSION)), Member("result_schema_version", Decimal(RESULT_SCHEMA_VERSION)),
     Member("agent_config_revision", Decimal(revision)), Member("batch_id", Quoted(batchId)), Member("observations", observations)]
  }

  lemma {:induction false} BodyGrows(revision: int, batchId: string, rows: seq<Observation>, compact: string -> string, m: nat, n: nat)
    requires m <= n <= |rows|
    ensures |Serialize(revision, batchId, rows[..m], compact)| <= |Serialize(revision, batchId, rows[..n], compact)|
  {
    if m < n {
      BodyGrows(revision, batchId, rows, compact, m, n - 1);
      var parts := Payloads(rows[..n], compact);
      assert Payloads(rows[..n - 1], compact) == parts[..n - 1];
      JoinedGrows(parts);
      LongerMember(revision, batchId, "[" + Joined(parts[..n - 1]) + "]", "[" + Joined(parts) + "]");
    }
  }

  lemma LongerMember(revision: int, batchId: string, a: string, b: string)
    requires |a| <= |b|
    ensures |Joined(Members(revision, batchId, a))| <= |Joined(Members(revision, batchId, b))|
  {
    var p, q := Members(revision, batchId, a), Members(revision, batchId, b);
    assert p[..4] == q[..4];
  }

  lemma JoinedGrows(parts: seq<string>)
    requires parts != []
    ensures |Joined(parts[..|parts| - 1])| <= |Joined(parts)|
  {
  }

  // ---------------------------------------------------------------- reading it back

  /** Compaction leaves one JSON value of every valid payload. */
  ghost predicate CompactsValues(valid: string -> bool, compact: string -> string) {
    forall p :: valid(p) ==> Single(compact(p))
  }

  function Names(): seq<string> {
    ["protocol_version", "result_schema_version", "agent_config_revision", "batch_id", "observations"]
  }

  function Values(revision: int, batchId: string, observations: string): seq<string> {
    [Decimal(PROTOCOL_VERSION), Decimal(RESULT_SCHEMA_VERSION), Decimal(revision), Quoted(batchId), observations]
  }

  lemma NamesArePlain()
    ensures forall i :: 0 <= i < |Names()| ==> Plain(Names()[i])
    ensures forall i, j :: 0 <= i < j < |Names()| ==> Names()[i] != Names()[j]
  {
    var names := Names();
    assert names[1][0] == 'r' && names[2][0] == 'a';
  }

  lemma MembersWritten(revision: int, batchId: string, observations: string)
    requires Plain(batchId) && Single(observations)
    ensures Written(Members(revision, batchId, observations), Names(), Values(revision, batchId, observations))
  {
    NamesArePlain();
    DecimalIsSingle(PROTOCOL_VERSION);
    DecimalIsSingle(RESULT_SCHEMA_VERSION);
    DecimalIsSingle(revision);
    QuotedIsSingle(batchId);
  }

  lemma MembersReadBack(revision: int, batchId: string, observations: string)
    requires Plain(batchId) && Single(observations)
    ensures var members := Members(revision, batchId, observations);
            && IntegerAt(members, "protocol_version") == Some(PROTOCOL_VERSION)
            && IntegerAt(members, "result_schema_version") == Some(RESULT_SCHEMA_VERSION)
            && IntegerAt(members, "agent_config_revision") == Some(revision)
            && TextAt(members, "batch_id") == Some(batchId)
            && Lookup(members, "observations") == Some(observations)
  {
    var members, names, values := Members(revision, batchId, observations), Names(), Values(revision, batchId, observations);
    NamesArePlain();
    MembersWritten(revision, batchId, observations);
    forall i | 0 <= i < 5 ensures Lookup(members, names[i]) == Some(values[i]) {
      LookupFinds(members, names, values, i);
    }
    assert names[0] == "protocol_version" && names[1] == "result_schema_version" && names[2] == "agent_config_revision"
           && names[3] == "batch_id" && names[4] == "observations";
    DecimalReadsBack(PROTOCOL_VERSION);
    DecimalReadsBack(RESULT_SCHEMA_VERSION);
    DecimalReadsBack(revision);
    QuotedReadsBack(batchId, "");
    assert Quoted(batchId) + "" == Quoted(batchId);
  }

  /** Reading a request body gives back the versions, the revision, the batch and every payload, in order. */
  lemma BodyReadsBack(revision: int, batchId: string, rows: seq<Observation>, compact: string -> string)
    requires Plain(batchId) && Singles(Payloads(rows, compact))
    ensures Read(Serialize(revision, batchId, rows, compact))
              == Some(Message(PROTOCOL_VERSION, RESULT_SCHEMA_VERSION, revision, batchId, Payloads(rows, compact)))
  {
    var observations := "[" + Joined(Payloads(rows, compact)) + "]";
    ArrayIsSingle(Payloads(rows, compact));
    ArrayReadsBack(Payloads(rows, compact));
    MembersWritten(revision, batchId, observations);
    ObjectReadsBack(Members(revision, batchId, observations), Names(), Values(revision, batchId, observations));
    MembersReadBack(revision, batchId, observations);
  }

  // ---------------------------------------------------------------- batches

  datatype Batch = Batch(revision: int, batchId: string, observations: seq<Observation>, body: string)

  datatype BatchError = BadLimits | InvalidObservation(observation: Observation) | Oversized(observation: Observation)

  /** The first `n` rows can travel together. */
  ghost predicate Fits(rows: seq<Observation>, n: nat, maxObservations: nat, maxBytes: nat, batchId: string,
                       valid: string -> bool, compact: string -> string)
  {
    && n <= |rows| && n <= maxObservations
    && (forall i :: 0 <= i < n ==> rows[i].configRevision == rows[0].configRevision && valid(rows[i].payload))
    && (n > 0 ==> |Serialize(rows[0].configRevision, batchId, rows[..n], compact)| <= maxBytes)
  }

  /** What stops the batch after its first `n` rows decides the outcome. */
  ghost function Outcome(rows: seq<Observation>, n: nat, maxObservations: nat, batchId: string,
                         valid: string -> bool, compact: string -> string): Result<Batch, BatchError>
    requires rows != [] && n <= |rows|
  {
    var revision := rows[0].configRevision;
    var batch := Batch(revision, batchId, rows[..n], if n == 0 then "" else Serialize(revision, batchId, rows[..n], compact));
    if n == |rows| || n == maxObservations || rows[n].configRevision != revision then Ok(batch)
    else if !valid(rows[n].payload) then Err(InvalidObservation(rows[n]))
    else if n == 0 then Err(Oversized(rows[0]))
    else Ok(batch)
  }

  /** The batch is the longest prefix of the ready rows that fits. */
  ghost predicate IsBatchFor(rows: seq<Observation>, maxObservations: nat, maxBytes: nat, batchId: string,
                             valid: string -> bool, compact: string -> string, r: Result<Batch, BatchError>)
  {
    rows != [] && exists n: nat ::
      && Fits(rows, n, maxObservations, maxBytes, batchId, valid, compact)
      && (forall m: nat :: Fits(rows, m, maxObservations, maxBytes, batchId, valid, compact) ==> m <= n)
      && r == Outcome(rows, n, maxObservations, batchId, valid, compact)
  }

  /** Something after the first `n` rows keeps the next row out. */
  ghost predicate StopsAfter(rows: seq<Observation>, n: nat, maxObservations: nat, maxBytes: nat, batchId: string,
                             valid: string -> bool, compact: string -> string)
  {
    || n >= |rows| || n == maxObservations || rows[n].configRevision != rows[0].configRevision || !valid(rows[n].payload)
    || |Serialize(rows[0].configRevision, batchId, rows[..n + 1], compact)| > maxBytes
  }

  lemma LongestFit(rows: seq<Observation>, n: nat, m: nat, maxObservations: nat, maxBytes: nat, batchId: string,
                   valid: string -> bool, compact: string -> string)
    requires StopsAfter(rows, n, maxObservations, maxBytes, batchId, valid, compact)
    requires Fits(rows, m, maxObservations, maxBytes, batchId, valid, compact)
    requires n <= maxObservations
    ensures m <= n
  {
    if n < m {
      BodyGrows(rows[0].configRevision, batchId, rows, compact, n + 1, m);
    }
  }

  lemma StoppedBatch(rows: seq<Observation>, n: nat, maxObservations: nat, maxBytes: nat, batchId: string,
                     valid: string -> bool, compact: string -> string)
    requires rows != [] && Fits(rows, n, maxObservations, maxBytes, batchId, valid, compact)
    requires StopsAfter(rows, n, maxObservations, maxBytes, batchId, valid, compact)
    ensures IsBatchFor(rows, maxObservations, maxBytes, batchId, valid, compact, Outcome(rows, n, maxObservations, batchId, valid, compact))
  {
    forall m: nat | Fits(rows, m, maxObservations, maxBytes, batchId, valid, compact) ensures m <= n {
      LongestFit(rows, n, m, maxObservations, maxBytes, batchId, valid, compact);
    }
  }

  method SelectRows(rows: seq<Observation>, maxObservations: nat, maxBytes: nat, batchId: string,
                    valid: string -> bool, compact: string -> string) returns (r: Result<Batch, BatchError>)
    requires rows != [] && maxObservations >= 1 && maxBytes >= 1
    ensures IsBatchFor(rows, maxObservations, maxBytes, batchId, valid, compact, r)
    ensures Plain(batchId) && CompactsValues(valid, compact) && r.Ok? ==> Carries(r.value, compact)
  {
    var revision := rows[0].configRevision;
    ghost var n;
    r, n := GrowBatch(rows, maxObservations, maxBytes, batchId, valid, s => Serialize(revision, batchId, s, compact));
    StoppedBatch(rows, n, maxObservations, maxBytes, batchId, valid, compact);
    if Plain(batchId) && CompactsValues(valid, compact) {
      BatchIsCarried(rows, maxObservations, maxBytes, batchId, valid, compact, r);
    }
  }

  /** `write` gives the body of a selection. */
  method GrowBatch(rows: seq<Observation>, maxObservations: nat, maxBytes: nat, batchId: string,
                   valid: string -> bool, write: seq<Observation> -> string) returns (r: Result<Batch, BatchError>, ghost n: nat)
    requires rows != [] && maxObservations >= 1 && maxBytes >= 1
    ensures n <= |rows| && n <= maxObservations && (n > 0 ==> |write(rows[..n])| <= maxBytes)
    ensures forall i :: 0 <= i < n ==> rows[i].configRevision == rows[0].configRevision && valid(rows[i].payload)
    ensures n == |rows| || n == maxObservations || rows[n].configRevision != rows[0].configRevision || !valid(rows[n].payload)
            || |write(rows[..n + 1])| > maxBytes
    ensures var batch := Batch(rows[0].configRevision, batchId, rows[..n], if n == 0 then "" else write(rows[..n]));
            r == if n == |rows| || n == maxObservations || rows[n].configRevision != rows[0].configRevision then Ok(batch)
                 else if !valid(rows[n].payload) then Err(InvalidObservation(rows[n]))
                 else if n == 0 then Err(Oversized(rows[0]))
                 else Ok(batch)
  {
    var revision := rows[0].configRevision;
    var selected: seq<Observation> := [];
    var body := "";
    for i := 0 to |rows|
      invariant selected == rows[..i] && i <= maxObservations
      invariant body == if i == 0 then "" else write(rows[..i])
      invariant i > 0 ==> |body| <= maxBytes
      invariant forall k :: 0 <= k < i ==> rows[k].configRevision == revision && valid(rows[k].payload)
    {
      if |selected| == maxObservations || rows[i].configRevision != revision {
        return Ok(Batch(revision, batchId, selected, body)), i;
      }
      if !valid(rows[i].payload) {
        return Err(InvalidObservation(rows[i])), i;
      }
      assert rows[..i + 1] == selected + [rows[i]];
      var candidate := write(selected + [rows[i]]);
      if |candidate| > maxBytes {
        if |selected| == 0 {
          return Err(Oversized(rows[i])), i;
        }
        return Ok(Batch(revision, batchId, selected, body)), i;
      }
      selected, body := selected + [rows[i]], candidate;
    }
    return Ok(Batch(revision, batchId, selected, body)), |rows|;
  }

  const EMPTY_BATCH := Batch(0, "", [], "")

  method BuildBatch(store: Store, now: Instant, maxObservations: int, maxBytes: int, batchId: string,
                    valid: string -> bool, compact: string -> string)
    returns (r: Result<Batch, BatchError>, ghost rows: seq<Observation>)
    requires KeyedByIdentity(store.Db())
    ensures maxObservations < 1 || maxBytes < 1 ==> r == Err(BadLimits)
    ensures maxObservations >= 1 && maxBytes >= 1 ==>
              && IsReadyList(store.Db(), now, maxObservations + 1, rows)
              && (if rows == [] then r == Ok(EMPTY_BATCH)
                  else IsBatchFor(rows, maxObservations, maxBytes, batchId, valid, compact, r))
    ensures Plain(batchId) && CompactsValues(valid, compact) && r.Ok? && r.value.observations != [] ==> Carries(r.value, compact)
  {
    rows := [];
    if maxObservations < 1 || maxBytes < 1 {
      return Err(BadLimits), [];
    }
    var ready := store.ReadyObservations(now, maxObservations + 1);
    rows := ready.value;
    if ready.value == [] {
      return Ok(EMPTY_BATCH), rows;
    }
    r := SelectRows(ready.value, maxObservations, maxBytes, batchId, valid, compact);
  }

  /** A batch is never empty when something is ready, and it respects both limits. */
  lemma BatchWithinLimits(rows: seq<Observation>, maxObservations: nat, maxBytes: nat, batchId: string,
                          valid: string -> bool, compact: string -> string, r: Result<Batch, BatchError>)
    requires rows != [] && maxObservations >= 1
    requires IsBatchFor(rows, maxObservations, maxBytes, batchId, valid, compact, r)
    ensures r.Ok? ==>
              && 0 < |r.value.observations| <= maxObservations && |r.value.body| <= maxBytes
              && r.value.observations <= rows && r.value.batchId == batchId
              && r.value.body == Serialize(r.value.revision, batchId, r.value.observations, compact)
              && forall o :: o in r.value.observations ==> o.configRevision == r.value.revision && valid(o.payload)
    ensures r.Err? ==> !r.error.BadLimits? && r.error.observation in rows
    ensures r.Err? ==> (r.error.InvalidObservation? <==> !valid(r.error.observation.payload))
    ensures r.Err? && r.error.Oversized? ==>
              r.error.observation == rows[0] && |Serialize(rows[0].configRevision, batchId, rows[..1], compact)| > maxBytes
  {
    var n: nat :| Fits(rows, n, maxObservations, maxBytes, batchId, valid, compact)
                  && (forall m: nat :: Fits(rows, m, maxObservations, maxBytes, batchId, valid, compact) ==> m <= n)
                  && r == Outcome(rows, n, maxObservations, batchId, valid, compact);
    if r.Err? && r.error.Oversized? {
      assert !Fits(rows, 1, maxObservations, maxBytes, batchId, valid, compact);
    }
  }

  /** Whoever reads the body of the batch learns exactly what the batch holds. */
  ghost predicate Carries(batch: Batch, compact: string -> string) {
    Read(batch.body) == Some(Message(PROTOCOL_VERSION, RESULT_SCHEMA_VERSION, batch.revision, batch.batchId,
                                     Payloads(batch.observations, compact)))
  }

  lemma BatchIsCarried(rows: seq<Observation>, maxObservations: nat, maxBytes: nat, batchId: string,
                       valid: string -> bool, compact: string -> string, r: Result<Batch, BatchError>)
    requires rows != [] && maxObservations >= 1 && Plain(batchId) && CompactsValues(valid, compact)
    requires IsBatchFor(rows, maxObservations, maxBytes, batchId, valid, compact, r)
    ensures r.Ok? ==> Carries(r.value, compact)
  {
    BatchWithinLimits(rows, maxObservations, maxBytes, batchId, valid, compact, r);
    if r.Ok? {
      forall i | 0 <= i < |r.value.observations| ensures Single(compact(r.value.observations[i].payload)) {
        assert r.value.observations[i] in r.value.observations;
      }
      BodyReadsBack(r.value.revision, batchId, r.value.observations, compact);
    }
  }

  // ---------------------------------------------------------------- one upload call

  /** One element of the server's answer. */
  datatype RowAnswer = RowAnswer(key: Key, disposition: Disposition, code: string, retryable: bool)

  /** What the HTTP exchange yields.  `Failed` covers transport errors, refusals and undecodable bodies. */
  datatype Exchange =
    | Failed(retryAfter: int)
    | Answered(protocolVersion: int, batchId: string, results: seq<RowAnswer>, retryAfterSeconds: Option<int>)

  /** Wrap-around of int64 multiplication. */
  function Int64(n: int): (r: int)
    ensures -0x8000_0000_0000_0000 <= r < 0x8000_0000_0000_0000
  {
    (n + 0x8000_0000_0000_0000) % 0x1_0000_0000_0000_0000 - 0x8000_0000_0000_0000
  }

  function ServerDelay(retryAfterSeconds: Option<int>): int {
    if retryAfterSeconds.Some? then Int64(retryAfterSeconds.value * NANOS_PER_SECOND) else 0
  }

  function Later(now: Clock, failureCount: int, serverDelay: int, fraction: real): Instant {
    RetryDelayRange(failureCount, serverDelay, fraction);
    now + RetryDelay(failureCount, serverDelay, fraction)
  }

  function Acknowledgements(batch: Batch, results: seq<RowAnswer>, delay: int, now: Clock, random: nat -> real): (acks: seq<Acknowledgement>)
    ensures |acks| == |results|
  {
    seq(|results|, i requires 0 <= i < |results| =>
      var a := results[i];
      var next := if a.retryable && i < |batch.observations|
                  then Later(now, batch.observations[i].attempts + 1, delay, random(i)) else ZERO_TIME;
      Acknowledgement(a.key, a.disposition, a.code, a.retryable, "", next))
  }

  ghost function Failure(db: Database, delay: int, later: Clock, fraction: real): Database {
    FailureRecorded(db, Later(later, db.sync.failures + 1, delay, fraction))
  }

  /** The queue after the exchange for `batch`: the cleanup, or a recorded failure. */
  ghost function Exchanged(db: Database, batch: Batch, exchange: Exchange, now: Clock, later: Clock, random: nat -> real): Database {
    match exchange
    case Failed(retryAfter) => Failure(db, retryAfter, later, random(0))
    case Answered(version, batchId, results, retryAfterSeconds) =>
      if version != PROTOCOL_VERSION || batchId != batch.batchId then Failure(db, 0, later, random(0))
      else
        var delay := ServerDelay(retryAfterSeconds);
        match Acknowledged(db, batch.observations, Acknowledgements(batch, results, delay, now, random), now)
        case Ok(after) => after
        case Err(_) => Failure(db, delay, later, random(0))
  }

  /** A row that cannot be uploaded is quarantined on its own; if that fails nothing changes. */
  ghost function SetAside(db: Database, error: BatchError, now: Instant): Database
    requires !error.BadLimits?
  {
    var (code, details) := if error.Oversized? then ("local_payload_too_large", "serialized upload exceeds 1 MiB")
                           else ("local_invalid_payload", "stored observation is not valid JSON");
    match Quarantined(db, error.observation, code, details, now)
    case Ok(after) => after
    case Err(_) => db
  }

  predicate BackingOff(sync: Synchronization, now: Instant) {
    sync.backoffUntil.Some? && now < sync.backoffUntil.value
  }

  ghost predicate UploadCall(before: Database, after: Database, rows: seq<Observation>, r: Result<Batch, BatchError>,
                             respond: string -> Exchange, now: Clock, later: Clock, random: nat -> real)
  {
    if BackingOff(before.sync, now) || rows == [] then after == before
    else
      match r
      case Ok(batch) => after == Exchanged(before, batch, respond(batch.body), now, later, random)
      case Err(e) => !e.BadLimits? && after == SetAside(before, e, now)
  }

  method QuarantineUnsendable(store: Store, error: BatchError, now: Instant)
    requires !error.BadLimits?
    modifies store
    ensures store.Db() == SetAside(old(store.Db()), error, now)
  {
    if error.Oversized? {
      var _ := store.QuarantineObservation(
        error.observation, "local_payload_too_large", "serialized upload exceeds 1 MiB", now);
    } else {
      var _ := store.QuarantineObservation(
        error.observation, "local_invalid_payload", "stored observation is not valid JSON", now);
    }
  }

  /** What became of one batch: set aside, nothing to do, or exchanged. */
  method Dispatch(store: Store, ghost rows: seq<Observation>, built: Result<Batch, BatchError>, now: Clock, later: Clock,
                  respond: string -> Exchange, random: nat -> real)
    requires !BackingOff(store.Db().sync, now) && (rows == [] ==> built == Ok(EMPTY_BATCH))
    requires rows != [] && built.Ok? ==> built.value.observations != []
    requires built.Err? ==> !built.error.BadLimits?
    modifies store
    ensures UploadCall(old(store.Db()), store.Db(), rows, built, respond, now, later, random)
  {
    if built.Err? {
      QuarantineUnsendable(store, built.error, now);
      return;
    }
    var batch := built.value;
    if |batch.observations| == 0 {
      return;
    }
    SettleExchange(store, batch, respond(batch.body), now, later, random);
  }

  method UploadOnce(store: Store, now: Clock, later: Clock, batchId: string, valid: string -> bool, compact: string -> string,
                    respond: string -> Exchange, random: nat -> real)
    returns (ghost rows: seq<Observation>, ghost r: Result<Batch, BatchError>)
    requires KeyedByIdentity(store.Db())
    modifies store
    ensures IsReadyList(old(store.Db()), now, MAX_BATCH_OBSERVATIONS + 1, rows)
            || (rows == [] && BackingOff(old(store.Db()).sync, now))
    ensures rows != [] ==> IsBatchFor(rows, MAX_BATCH_OBSERVATIONS, MAX_BATCH_BYTES, batchId, valid, compact, r)
    ensures Plain(batchId) && CompactsValues(valid, compact) && rows != [] && r.Ok? ==> Carries(r.value, compact)
    ensures UploadCall(old(store.Db()), store.Db(), rows, r, respond, now, later, random)
  {
    rows, r := [], Ok(EMPTY_BATCH);
    var state := store.sync;
    if BackingOff(state, now) {
      return;
    }
    var built, ready := BuildBatch(store, now, MAX_BATCH_OBSERVATIONS, MAX_BATCH_BYTES, batchId, valid, compact);
    rows, r := ready, built;
    if rows != [] {
      BatchWithinLimits(rows, MAX_BATCH_OBSERVATIONS, MAX_BATCH_BYTES, batchId, valid, compact, r);
    }
    Dispatch(store, rows, built, now, later, respond, random);
  }

  method SettleExchange(store: Store, batch: Batch, exchange: Exchange, now: Clock, later: Clock, random: nat -> real)
    modifies store
    ensures store.Db() == Exchanged(old(store.Db()), batch, exchange, now, later, random)
  {
    var failures := store.sync.failures + 1;
    if exchange.Failed? {
      store.RecordSynchronizationFailure(Later(later, failures, exchange.retryAfter, random(0)));
      return;
    }
    if exchange.protocolVersion != PROTOCOL_VERSION || exchange.batchId != batch.batchId {
      store.RecordSynchronizationFailure(Later(later, failures, 0, random(0)));
      return;
    }
    var delay := ServerDelay(exchange.retryAfterSeconds);
    var acks := Acknowledgements(batch, exchange.results, delay, now, random);
    var applied := store.ApplyAcknowledgements(batch.observations, acks, now);
    if applied.Err? {
      store.RecordSynchronizationFailure(Later(later, failures, delay, random(0)));
    }
  }

  // ---------------------------------------------------------------- what an answer does to its row

  /** The row is where the answer says, and nothing of it is lost on the way. */
  ghost predicate AnswerApplied(before: Database, after: Database, o: Observation, a: RowAnswer, delay: int, now: Clock) {
    var k := o.key;
    match a.disposition
    case Accepted => k !in after.pending && (k in after.rejected <==> k in before.rejected)
    case Duplicate => k !in after.pending && (k in after.rejected <==> k in before.rejected)
    case Rejected =>
      if !a.retryable then k !in after.pending && k in after.rejected && after.rejected[k] == Rejection(o.payload, a.code, "", now)
      else
        && (k in after.pending <==> k in before.pending) && (k in after.rejected <==> k in before.rejected)
        && (k in before.pending ==> PutOff(before.pending[k], after.pending[k], a.code, delay, now))
    case Unknown(_) => false
  }

  /** The same row with one attempt more, to be tried again when the server and the backoff allow. */
  ghost predicate PutOff(before: Observation, after: Observation, code: string, delay: int, now: Clock) {
    && after.key == before.key && after.payload == before.payload && after.monitor == before.monitor
    && after.monitorRevision == before.monitorRevision && after.configRevision == before.configRevision
    && after.probeType == before.probeType && after.createdAt == before.createdAt
    && after.attempts == before.attempts + 1 && after.lastAttempt == Some(now) && after.lastError == Some(code)
    && now + Min(delay, MAXIMUM_RETRY_DELAY) <= after.nextAttempt <= now + MAXIMUM_RETRY_DELAY && now <= after.nextAttempt
  }

  /** If the answer is taken at all, every row of the batch is where its own element of it says. */
  lemma AnswersApplied(db: Database, batch: Batch, exchange: Exchange, now: Clock, later: Clock, random: nat -> real, i: nat)
    requires DistinctKeys(batch.observations) && exchange.Answered? && i < |batch.observations|
    requires exchange.protocolVersion == PROTOCOL_VERSION && exchange.batchId == batch.batchId
    requires Acknowledged(db, batch.observations,
                          Acknowledgements(batch, exchange.results, ServerDelay(exchange.retryAfterSeconds), now, random), now).Ok?
    ensures |exchange.results| == |batch.observations|
    ensures AnswerApplied(db, Exchanged(db, batch, exchange, now, later, random), batch.observations[i], exchange.results[i],
                          ServerDelay(exchange.retryAfterSeconds), now)
  {
    var delay := ServerDelay(exchange.retryAfterSeconds);
    var acks := Acknowledgements(batch, exchange.results, delay, now, random);
    AcknowledgementEffect(db, batch.observations, acks, now);
    var after := Exchanged(db, batch, exchange, now, later, random);
    assert RowSettled(db, after, batch.observations[i], acks[i], now);
    assert Matches(batch.observations[i], acks[i]);
    RetryDelayRange(batch.observations[i].attempts + 1, delay, random(i));
  }

  /** An answer of another protocol version or for another batch, or none at all, moves no row. */
  lemma ForeignAnswerMovesNothing(db: Database, batch: Batch, exchange: Exchange, now: Clock, later: Clock, random: nat -> real)
    requires exchange.Failed? || exchange.protocolVersion != PROTOCOL_VERSION || exchange.batchId != batch.batchId
    ensures var after := Exchanged(db, batch, exchange, now, later, random);
            after.pending == db.pending && after.rejected == db.rejected && after.sync.failures == db.sync.failures + 1
  {
  }

  /** After a failure nothing is uploaded until the delay is over, which the server may lengthen up to the cap. */
  lemma FailureBacksOff(db: Database, delay: int, later: Clock, fraction: real)
    ensures var after := Failure(db, delay, later, fraction);
            && after == db.(sync := after.sync) && after.sync.failures == db.sync.failures + 1
            && after.sync.lastContact == db.sync.lastContact && after.sync.lastUpload == db.sync.lastUpload
            && after.sync.backoffUntil.Some?
            && later + Min(delay, MAXIMUM_RETRY_DELAY) <= after.sync.backoffUntil.value <= later + MAXIMUM_RETRY_DELAY
            && (forall t: Instant :: BackingOff(after.sync, t) <==> t < after.sync.backoffUntil.value)
  {
    RetryDelayRange(db.sync.failures + 1, delay, fraction);
  }

  /** A row that can never be uploaded is quarantined with its payload, under the reason that applies. */
  lemma UnsendableIsQuarantined(db: Database, error: BatchError, now: Instant)
    requires !error.BadLimits? && error.observation.key in db.pending && error.observation.key !in db.rejected
    ensures var k, after := error.observation.key, SetAside(db, error, now);
            && after.pending == db.pending - {k} && k in after.rejected && after.rejected - {k} == db.rejected && after.sync == db.sync
            && after.rejected[k].payload == db.pending[k].payload && after.rejected[k].rejectedAt == now
            && (error.Oversized? ==> after.rejected[k].code == "local_payload_too_large")
            && (error.InvalidObservation? ==> after.rejected[k].code == "local_invalid_payload")
  {
  }

  /** Seconds the server asks for, as long as they fit a duration. */
  lemma ServerDelayIs(seconds: int)
    requires -9_223_372_036 <= seconds <= 9_223_372_036
    ensures ServerDelay(Some(seconds)) == seconds * 1_000_000_000 && ServerDelay(None) == 0
  {
  }

  /** A row put off is not read again in any earlier second, and is read in every later one. */
  lemma PutOffRowWaits(before: Observation, after: Observation, code: string, delay: int, now: Clock, db: Database, at: Instant)
    requires PutOff(before, after, code, delay, now) && after.key in db.pending && db.pending[after.key] == after
    ensures after.key in ReadyKeys(db.pending, at) ==> Second(after.nextAttempt) <= Second(at)
    ensures Second(after.nextAttempt) < Second(at) ==> after.key in ReadyKeys(db.pending, at)
    ensures delay > 0 ==> Second(now + Min(delay, MAXIMUM_RETRY_DELAY)) <= Second(after.nextAttempt)
  {
    ReadyWithinOneSecond(after.nextAttempt, at);
  }

  // ---------------------------------------------------------------- draining the queue

  /** A trusted answer that asks for no retry. */
  ghost predicate Conclusive(batch: Batch, exchange: Exchange, now: Clock, random: nat -> real) {
    && exchange.Answered? && exchange.protocolVersion == PROTOCOL_VERSION && exchange.batchId == batch.batchId
    && Trusted(batch.observations, Acknowledgements(batch, exchange.results, ServerDelay(exchange.retryAfterSeconds), now, random))
    && forall i :: 0 <= i < |exchange.results| ==> !exchange.results[i].retryable
  }

  ghost predicate Apart(db: Database) {
    db.pending.Keys !! db.rejected.Keys
  }

  /** The call could be made and its answer, if any was asked for, was conclusive. */
  ghost predicate ConclusiveCall(before: Database, after: Database, rows: seq<Observation>, r: Result<Batch, BatchError>,
                                 respond: string -> Exchange, batchId: string, valid: string -> bool, compact: string -> string,
                                 now: Clock, later: Clock, random: nat -> real)
  {
    && !BackingOff(before.sync, now)
    && IsReadyList(before, now, MAX_BATCH_OBSERVATIONS + 1, rows) && rows != []
    && IsBatchFor(rows, MAX_BATCH_OBSERVATIONS, MAX_BATCH_BYTES, batchId, valid, compact, r)
    && (r.Ok? ==> Conclusive(r.value, respond(r.value.body), now, random))
    && UploadCall(before, after, rows, r, respond, now, later, random)
  }

  /**
  A conclusive answer empties its batch out of the queue exactly when no row it permanently rejects
  is already quarantined; when one is, the transaction rolls back and every row of the batch stays.
  */
  lemma ConclusiveAnswerClears(db: Database, batch: Batch, exchange: Exchange, now: Clock, later: Clock, random: nat -> real)
    requires DistinctKeys(batch.observations) && Conclusive(batch, exchange, now, random)
    requires forall o :: o in batch.observations ==> o.key in db.pending
    ensures var after := Exchanged(db, batch, exchange, now, later, random);
            var acks := Acknowledgements(batch, exchange.results, ServerDelay(exchange.retryAfterSeconds), now, random);
            if forall i :: 0 <= i < |acks| ==> !Blocked(db, batch.observations[i], acks[i])
            then after.pending == db.pending - Keys(batch.observations) && (Apart(db) ==> Apart(after))
            else after.pending == db.pending && after.rejected == db.rejected
  {
    var delay := ServerDelay(exchange.retryAfterSeconds);
    var acks := Acknowledgements(batch, exchange.results, delay, now, random);
    AcknowledgementEffect(db, batch.observations, acks, now);
    if Acknowledged(db, batch.observations, acks, now).Ok? {
      var after := Acknowledged(db, batch.observations, acks, now).value;
      forall k ensures k in after.pending <==> k in db.pending && k !in Keys(batch.observations) {
        if k in Keys(batch.observations) {
          var i :| 0 <= i < |batch.observations| && batch.observations[i].key == k;
          assert RowSettled(db, after, batch.observations[i], acks[i], now);
        } else {
          assert SameAt(db, after, k);
        }
      }
      forall k | k in after.pending ensures after.pending[k] == db.pending[k] {
        assert SameAt(db, after, k);
      }
      assert Apart(db) ==> Apart(after) by {
        forall k | Apart(db) && k in after.pending ensures k !in after.rejected {
          assert SameAt(db, after, k);
        }
      }
    }
  }

  /** While no pending row is also quarantined, every conclusive call with work to do removes a row. */
  lemma ConclusiveCallShrinks(before: Database, after: Database, rows: seq<Observation>, r: Result<Batch, BatchError>,
                              respond: string -> Exchange, batchId: string, valid: string -> bool, compact: string -> string,
                              now: Clock, later: Clock, random: nat -> real)
    requires ConclusiveCall(before, after, rows, r, respond, batchId, valid, compact, now, later, random)
    requires Apart(before)
    ensures |after.pending| < |before.pending| && Apart(after)
  {
    RowsQueued(before, now, rows);
    BatchWithinLimits(rows, MAX_BATCH_OBSERVATIONS, MAX_BATCH_BYTES, batchId, valid, compact, r);
    match r
    case Ok(batch) =>
      PrefixQueued(before, rows, batch.observations);
      BatchLeaves(before, after, batch, respond(batch.body), now, later, random);
    case Err(e) =>
      RowLeaves(before, e, now);
  }

  ghost predicate Queued(db: Database, rows: seq<Observation>) {
    DistinctKeys(rows) && forall o :: o in rows ==> o.key in db.pending
  }

  lemma RowsQueued(db: Database, now: Instant, rows: seq<Observation>)
    requires IsReadyList(db, now, MAX_BATCH_OBSERVATIONS + 1, rows)
    ensures Queued(db, rows)
  {
    ReadyListDistinct(db, now, MAX_BATCH_OBSERVATIONS + 1, rows);
  }

  lemma PrefixQueued(db: Database, rows: seq<Observation>, prefix: seq<Observation>)
    requires Queued(db, rows) && prefix <= rows
    ensures Queued(db, prefix)
  {
    assert forall i :: 0 <= i < |prefix| ==> prefix[i] == rows[i];
  }

  lemma BatchLeaves(before: Database, after: Database, batch: Batch, exchange: Exchange, now: Clock, later: Clock, random: nat -> real)
    requires Apart(before) && after == Exchanged(before, batch, exchange, now, later, random)
    requires Queued(before, batch.observations) && batch.observations != [] && Conclusive(batch, exchange, now, random)
    ensures |after.pending| < |before.pending| && Apart(after)
  {
    ConclusiveAnswerClears(before, batch, exchange, now, later, random);
    var k := batch.observations[0].key;
    assert k in Keys(batch.observations);
    assert batch.observations[0] in batch.observations;
    assert after.pending.Keys <= before.pending.Keys - {k};
    SmallerSet(after.pending.Keys, before.pending.Keys - {k});
  }

  lemma RowLeaves(before: Database, error: BatchError, now: Instant)
    requires Apart(before) && !error.BadLimits? && error.observation.key in before.pending
    ensures var after := SetAside(before, error, now); |after.pending| < |before.pending| && Apart(after)
  {
    var after := SetAside(before, error, now);
    assert after.pending.Keys == before.pending.Keys - {error.observation.key};
  }

  datatype CallRecord = CallRecord(rows: seq<Observation>, built: Result<Batch, BatchError>, batchId: string, now: Clock, later: Clock)

  ghost predicate ConclusiveCalls(dbs: seq<Database>, calls: seq<CallRecord>, respond: string -> Exchange,
                                  valid: string -> bool, compact: string -> string, random: nat -> real)
  {
    && |dbs| == |calls| + 1
    && forall i :: 0 <= i < |calls| ==>
         var c := calls[i];
         ConclusiveCall(dbs[i], dbs[i + 1], c.rows, c.built, respond, c.batchId, valid, compact, c.now, c.later, random)
  }

  /** So a queue of n rows is drained after at most n such calls, at whatever times they are made. */
  lemma {:induction false} DrainBound(dbs: seq<Database>, calls: seq<CallRecord>, respond: string -> Exchange,
                                      valid: string -> bool, compact: string -> string, random: nat -> real)
    requires ConclusiveCalls(dbs, calls, respond, valid, compact, random) && Apart(dbs[0])
    ensures |dbs[|calls|].pending| + |calls| <= |dbs[0].pending|
    ensures Apart(dbs[|calls|])
  {
    if calls != [] {
      var n := |calls| - 1;
      assert ConclusiveCalls(dbs[..n + 1], calls[..n], respond, valid, compact, random) by {
        forall i | 0 <= i < n
          ensures var c := calls[i];
                  ConclusiveCall(dbs[i], dbs[i + 1], c.rows, c.built, respond, c.batchId, valid, compact, c.now, c.later, random)
        {
        }
      }
      DrainBound(dbs[..n + 1], calls[..n], respond, valid, compact, random);
      var c := calls[n];
      ConclusiveCallShrinks(dbs[n], dbs[n + 1], c.rows, c.built, respond, c.batchId, valid, compact, c.now, c.later, random);
    }
  }
}
