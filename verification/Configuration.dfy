/**
Configuration snapshots on both sides of the wire: the control plane's revision row and immutable
snapshots for one agent, and the agent's snapshot table.

The digest of a configuration is a parameter, a function that never returns the empty text.
*/
module Configuration {
  import opened Options

  datatype Entry = Entry(
    monitor: string, target: string, revision: int, address: string, probeType: string,
    schemaVersion: int, interval: int, timeout: int, configuration: string)

  type Content = seq<Entry>

  /** The monitors query yields each monitor once; the agent refuses a snapshot that repeats one. */
  predicate DistinctMonitors(content: Content) {
    forall i, j :: 0 <= i < j < |content| ==> content[i].monitor != content[j].monitor
  }

  ghost predicate IsDigest(digest: Content -> string) {
    forall c :: digest(c) != ""
  }

  /** A hash of configurations: any function whose text is never empty. */
  type Digest = digest: Content -> string | IsDigest(digest) ghost witness (_: Content) => "0"

  // ---------------------------------------------------------------- control plane

  datatype Snapshot = Snapshot(hash: string, content: Content)

  datatype ServerState = ServerState(
    desired: nat,
    desiredHash: string,
    acknowledged: nat,
    acknowledgedHash: string,
    snapshots: map<nat, Snapshot>)

  datatype ServerError = CapabilitiesRequired | IncompatibleCapability(monitor: string) | RevisionConflict | UnknownConfiguration

  const FRESH_STATE := ServerState(0, "", 0, "", map[])

  function Bumped(s: ServerState): ServerState {
    s.(desired := s.desired + 1, desiredHash := "")
  }

  ghost predicate Unsupported(content: Content, supported: Entry -> bool, i: nat) {
    i < |content| && !supported(content[i]) && forall j :: 0 <= j < i ==> supported(content[j])
  }

  /** The snapshot handed out for `content`, the agent's present assignments. */
  ghost function Issued(s: ServerState, heartbeat: bool, content: Content, supported: Entry -> bool, digest: Content -> string)
    : Result<(ServerState, nat), ServerError>
  {
    var revision := if s.desired == 0 then 1 else s.desired;
    if !heartbeat then Err(CapabilitiesRequired)
    else if i: nat :| Unsupported(content, supported, i) then Err(IncompatibleCapability(content[i].monitor))
    else
      var hash := digest(content);
      if revision in s.snapshots && s.snapshots[revision].hash != hash then Err(RevisionConflict)
      else
        var snapshots := if revision in s.snapshots then s.snapshots else s.snapshots[revision := Snapshot(hash, content)];
        Ok(((if s.desiredHash == hash then s else s.(desired := revision, desiredHash := hash)).(snapshots := snapshots), revision))
  }

  ghost function AcknowledgedBy(s: ServerState, revision: nat, hash: string): Result<ServerState, ServerError> {
    if revision !in s.snapshots || s.snapshots[revision].hash != hash then Err(UnknownConfiguration)
    else if revision >= s.acknowledged then Ok(s.(acknowledged := revision, acknowledgedHash := hash))
    else Ok(s)
  }

  /** The row invariants: the table's CHECK among them. */
  ghost predicate ValidServer(s: ServerState, digest: Content -> string) {
    && s.acknowledged <= s.desired
    && (forall r :: r in s.snapshots ==> 1 <= r <= s.desired && s.snapshots[r].hash == digest(s.snapshots[r].content))
    && (s.desired == 0 ==> s.desiredHash == "")
    && (s.acknowledged > 0 ==> s.acknowledged in s.snapshots && s.snapshots[s.acknowledged].hash == s.acknowledgedHash)
    && (s.desiredHash != "" ==> s.desired in s.snapshots && s.snapshots[s.desired].hash == s.desiredHash)
  }

  /** Revisions never go back and snapshots are immutable. */
  ghost predicate ServerExtends(s: ServerState, t: ServerState) {
    && s.desired <= t.desired && s.acknowledged <= t.acknowledged
    && forall r :: r in s.snapshots ==> r in t.snapshots && t.snapshots[r] == s.snapshots[r]
  }

  lemma BumpKeeps(s: ServerState, digest: Content -> string)
    requires ValidServer(s, digest)
    ensures ValidServer(Bumped(s), digest) && ServerExtends(s, Bumped(s))
  {
  }

  /**
  A configuration is issued exactly when the agent has announced its capabilities, they cover every entry, and
  the desired revision has no snapshot of other content yet; the first of these that fails is the error.
  */
  lemma IssuedIff(s: ServerState, heartbeat: bool, content: Content, supported: Entry -> bool, digest: Content -> string)
    ensures var revision, issued := if s.desired == 0 then 1 else s.desired, Issued(s, heartbeat, content, supported, digest);
            && (issued == Err(CapabilitiesRequired) <==> !heartbeat)
            && (issued.Err? && issued.error.IncompatibleCapability? <==> heartbeat && exists i :: 0 <= i < |content| && !supported(content[i]))
            && (forall i: nat :: heartbeat && Unsupported(content, supported, i) ==> issued == Err(IncompatibleCapability(content[i].monitor)))
            && (issued == Err(RevisionConflict) <==>
                  && heartbeat && (forall i :: 0 <= i < |content| ==> supported(content[i]))
                  && revision in s.snapshots && s.snapshots[revision].hash != digest(content))
            && (issued.Ok? ==> issued.value.1 == revision && (revision !in s.snapshots ==> issued.value.0.snapshots == s.snapshots[revision := Snapshot(digest(content), content)]))
            && !(issued.Err? && issued.error.UnknownConfiguration?)
  {
    if i :| 0 <= i < |content| && !supported(content[i]) {
      var first := FirstAmong(content, supported, i);
      FirstUnsupported(content, supported, first);
    }
    forall i: nat | Unsupported(content, supported, i) ensures heartbeat ==> Issued(s, heartbeat, content, supported, digest) == Err(IncompatibleCapability(content[i].monitor)) {
      FirstUnsupported(content, supported, i);
    }
  }

  lemma {:induction false} FirstAmong(content: Content, supported: Entry -> bool, i: nat) returns (first: nat)
    requires i < |content| && !supported(content[i])
    ensures Unsupported(content, supported, first)
  {
    if j :| 0 <= j < i && !supported(content[j]) {
      first := FirstAmong(content, supported, j);
    } else {
      first := i;
    }
  }

  /** Issuing answers with the desired revision, and its stored snapshot hashes like the present content. */
  lemma IssueKeeps(s: ServerState, heartbeat: bool, content: Content, supported: Entry -> bool, digest: Content -> string)
    requires IsDigest(digest) && ValidServer(s, digest) && Issued(s, heartbeat, content, supported, digest).Ok?
    ensures var (t, revision) := Issued(s, heartbeat, content, supported, digest).value;
            && ValidServer(t, digest) && ServerExtends(s, t) && t.acknowledged == s.acknowledged
            && revision == t.desired >= 1 && revision in t.snapshots && t.snapshots[revision].hash == digest(content)
  {
    assert digest(content) != "";
  }

  /** An acknowledgement of an issued snapshot is recorded unless a newer one was; late ones are harmless. */
  lemma AcknowledgeKeeps(s: ServerState, revision: nat, hash: string, digest: Content -> string)
    requires ValidServer(s, digest) && AcknowledgedBy(s, revision, hash).Ok?
    ensures var t := AcknowledgedBy(s, revision, hash).value;
            && ValidServer(t, digest) && ServerExtends(s, t) && t.desired == s.desired && t.snapshots == s.snapshots
            && t.acknowledged == (if revision >= s.acknowledged then revision else s.acknowledged)
            && (revision < s.acknowledged ==> t == s)
            && AcknowledgedBy(t, revision, hash) == Ok(t)
  {
  }

  method CollectEntries(monitors: seq<Entry>, supported: Entry -> bool) returns (entries: Content, incompatible: Option<nat>)
    ensures incompatible.None? ==> entries == monitors && forall j :: 0 <= j < |monitors| ==> supported(monitors[j])
    ensures incompatible.Some? ==> Unsupported(monitors, supported, incompatible.value)
  {
    entries := [];
    for i := 0 to |monitors|
      invariant entries == monitors[..i]
      invariant forall j :: 0 <= j < i ==> supported(monitors[j])
    {
      if !supported(monitors[i]) {
        return entries, Some(i);
      }
      entries := entries + [monitors[i]];
    }
    assert monitors[..|monitors|] == monitors;
    return entries, None;
  }

  class ConfigurationTable {
    var desired: nat
    var desiredHash: string
    var acknowledged: nat
    var acknowledgedHash: string
    var snapshots: map<nat, Snapshot>

    ghost function Value(): ServerState
      reads this
    {
      ServerState(desired, desiredHash, acknowledged, acknowledgedHash, snapshots)
    }

    constructor ()
      ensures Value() == FRESH_STATE
    {
      desired, desiredHash, acknowledged, acknowledgedHash, snapshots := 0, "", 0, "", map[];
    }

    method Bump()
      modifies this
      ensures Value() == Bumped(old(Value()))
    {
      desired := desired + 1;
      desiredHash := "";
    }

    /** `monitors` are the agent's assigned monitors in identifier order. */
    method GetOrCreateConfiguration(heartbeat: bool, monitors: seq<Entry>, supported: Entry -> bool, digest: Content -> string)
      returns (r: Result<nat, ServerError>)
      modifies this
      ensures match Issued(old(Value()), heartbeat, monitors, supported, digest)
              case Ok((after, revision)) => r == Ok(revision) && Value() == after
              case Err(e) => r == Err(e) && Value() == old(Value())
    {
      var revision := if desired == 0 then 1 else desired;
      if !heartbeat {
        return Err(CapabilitiesRequired);
      }
      var entries, incompatible := CollectEntries(monitors, supported);
      if incompatible.Some? {
        FirstUnsupported(monitors, supported, incompatible.value);
        return Err(IncompatibleCapability(monitors[incompatible.value].monitor));
      }
      var hash := digest(entries);
      if revision in snapshots {
        if snapshots[revision].hash != hash {
          return Err(RevisionConflict);
        }
      } else {
        snapshots := snapshots[revision := Snapshot(hash, entries)];
      }
      if desiredHash != hash {
        desired, desiredHash := revision, hash;
      }
      return Ok(revision);
    }

    method AcknowledgeConfiguration(revision: nat, hash: string) returns (r: Result<(), ServerError>)
      modifies this
      ensures match AcknowledgedBy(old(Value()), revision, hash)
              case Ok(after) => r == Ok(()) && Value() == after
              case Err(e) => r == Err(e) && Value() == old(Value())
    {
      if revision !in snapshots || snapshots[revision].hash != hash {
        return Err(UnknownConfiguration);
      }
      if revision >= acknowledged {
        acknowledged, acknowledgedHash := revision, hash;
      }
      return Ok(());
    }
  }

  lemma FirstUnsupported(content: Content, supported: Entry -> bool, i: nat)
    requires Unsupported(content, supported, i)
    ensures forall j: nat :: Unsupported(content, supported, j) ==> j == i
  {
  }

  // ---------------------------------------------------------------- agent

  datatype StoredSnapshot = StoredSnapshot(hash: string, content: Content, validated: bool, active: bool)

  type Snapshots = map<int, StoredSnapshot>

  datatype ActivationError = SnapshotFieldsRequired | ConfigurationConflict

  /** An inactive, validated row: a candidate for pruning. */
  predicate Prunable(rows: Snapshots, r: int) {
    r in rows && !rows[r].active && rows[r].validated
  }

  /** Downloaded content stored, every other row inactive. */
  function WithActive(rows: Snapshots, revision: int, hash: string, content: Content): Snapshots {
    (map r | r in rows :: rows[r].(active := false))[revision := StoredSnapshot(hash, content, true, true)]
  }

  function Pruned(rows: Snapshots): Snapshots {
    map r | r in rows && (Prunable(rows, r) ==> forall q | q in rows :: Prunable(rows, q) ==> q <= r) :: rows[r]
  }

  function Activated(rows: Snapshots, revision: int, hash: string, content: Content): Result<Snapshots, ActivationError> {
    if revision < 1 || hash == "" then Err(SnapshotFieldsRequired)
    else if revision in rows && (rows[revision].hash != hash || rows[revision].content != content) then Err(ConfigurationConflict)
    else Ok(Pruned(WithActive(rows, revision, hash, content)))
  }

  /** At most one row is active; rows are only ever written by an activation. */
  ghost predicate ValidSnapshots(rows: Snapshots) {
    && (forall r :: r in rows ==> r >= 1 && rows[r].validated)
    && (forall r, q :: r in rows && q in rows && rows[r].active && rows[q].active ==> r == q)
  }

  /** `ActiveConfiguration`: the revision of the active row, 0 when there is none. */
  ghost function ActiveRevision(rows: Snapshots): int {
    if r :| r in rows && rows[r].active then r else 0
  }

  lemma ActiveIs(rows: Snapshots, r: int)
    requires ValidSnapshots(rows) && r in rows && rows[r].active
    ensures ActiveRevision(rows) == r
  {
  }

  /**
  Activation leaves exactly one active row, the new one, and besides it at most one older row: the
  newest of the others, content untouched.
  */
  lemma ActivationEffect(rows: Snapshots, revision: int, hash: string, content: Content)
    requires ValidSnapshots(rows) && Activated(rows, revision, hash, content).Ok?
    ensures var after := Activated(rows, revision, hash, content).value;
            && ValidSnapshots(after) && ActiveRevision(after) == revision
            && after[revision] == StoredSnapshot(hash, content, true, true)
            && (forall r :: r in after && r != revision ==> r in rows && after[r] == rows[r].(active := false)
                                                             && forall q :: q in rows && q != revision ==> q <= r)
            && (forall r :: r in rows && r != revision && (forall q :: q in rows && q != revision ==> q <= r) ==> r in after)
            && |after| <= 2
  {
    var middle := WithActive(rows, revision, hash, content);
    var after := Pruned(middle);
    assert forall r :: r in rows && r != revision ==> r in middle && middle[r] == rows[r].(active := false);
    assert forall r :: Prunable(middle, r) <==> r in rows && r != revision;
    ActiveIs(after, revision);
    AtMostTwo(after, revision);
  }

  /** A snapshot is activated unless it is incomplete or its revision is known with other content; then nothing is. */
  lemma ActivatesIff(rows: Snapshots, revision: int, hash: string, content: Content)
    ensures var r := Activated(rows, revision, hash, content);
            && (r == Err(SnapshotFieldsRequired) <==> revision < 1 || hash == "")
            && (r == Err(ConfigurationConflict) <==>
                  revision >= 1 && hash != "" && revision in rows && (rows[revision].hash, rows[revision].content) != (hash, content))
            && (r.Ok? ==> forall q :: q in rows && q in r.value ==> (r.value[q].hash, r.value[q].content) == (rows[q].hash, rows[q].content))
  {
  }

  lemma AtMostTwo(rows: Snapshots, revision: int)
    requires revision in rows
    requires forall r, q :: r in rows && q in rows && r != revision && q != revision ==> r == q
    ensures |rows| <= 2
  {
    if r :| r in rows && r != revision {
      var two := {revision, r};
      forall k ensures k in rows.Keys <==> k in two {
      }
      assert rows.Keys == two;
    } else {
      var one := {revision};
      forall k ensures k in rows.Keys <==> k in one {
      }
      assert rows.Keys == one;
    }
  }

  class ConfigurationStore {
    var rows: Snapshots

    constructor ()
      ensures rows == map[]
    {
      rows := map[];
    }

    method ActivateConfiguration(revision: int, hash: string, content: Content) returns (r: Result<(), ActivationError>)
      modifies this
      ensures match Activated(old(rows), revision, hash, content)
              case Ok(after) => r == Ok(()) && rows == after
              case Err(e) => r == Err(e) && rows == old(rows)
    {
      if revision < 1 || hash == "" {
        return Err(SnapshotFieldsRequired);
      }
      if revision in rows {
        if rows[revision].hash != hash || rows[revision].content != content {
          return Err(ConfigurationConflict);
        }
      } else {
        rows := rows[revision := StoredSnapshot(hash, content, false, false)];
      }
      rows := map q | q in rows :: rows[q].(active := false);
      rows := rows[revision := rows[revision].(validated := true, active := true)];
      assert rows == WithActive(old(rows), revision, hash, content);
      rows := map q | q in rows && (Prunable(rows, q) ==> forall p | p in rows :: Prunable(rows, p) ==> p <= q) :: rows[q];
      return Ok(());
    }
  }
}
