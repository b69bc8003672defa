/** A synchronization between a control plane and an agent that hash with their own encoders. */
module TwoEncoders {
  import opened Options
  import opened Configuration
  import Json
  import CanonicalJson
  import Protocol = RevisionProtocol

  /** How an entry's stored configuration text reads as JSON fields: a parameter. */
  type Reading = string -> Json.Fields

  function MonitorOf(e: Entry, fields: Reading): CanonicalJson.MonitorConfiguration {
    CanonicalJson.MonitorConfiguration(e.monitor, e.target, e.revision, e.address, e.probeType, e.schemaVersion, e.interval, e.timeout, "skip",
                                       fields(e.configuration))
  }

  /** What is hashed for a content, on either side. */
  function Hashed(agentId: string, realmId: string, content: Content, fields: Reading): Json.Value {
    CanonicalJson.Content(agentId, realmId, seq(|content|, i requires 0 <= i < |content| => MonitorOf(content[i], fields)))
  }

  /** The control plane's hash. */
  function ServerDigest(agentId: string, realmId: string, fields: Reading, hash: string -> string): Content -> string {
    (content: Content) => hash(Json.Canonical(Hashed(agentId, realmId, content, fields), CanonicalJson.PythonStyle()))
  }

  /** The agent finds the hash of the reply to be its own hash of the content. */
  predicate HashPasses(agentId: string, realmId: string, snapshot: Snapshot, fields: Reading, hash: string -> string, double: int -> int) {
    hash(Json.Canonical(Hashed(agentId, realmId, snapshot.content, fields), CanonicalJson.GoStyle(double))) == snapshot.hash
  }

  lemma ServerDigestIsDigest(agentId: string, realmId: string, fields: Reading, hash: string -> string)
    requires NeverEmpty(hash)
    ensures IsDigest(ServerDigest(agentId, realmId, fields, hash))
  {
    var digest := ServerDigest(agentId, realmId, fields, hash);
    forall c ensures digest(c) != "" {
      assert digest(c) == hash(Json.Canonical(Hashed(agentId, realmId, c, fields), CanonicalJson.PythonStyle()));
    }
  }

  /** The control plane can answer a request made now. */
  ghost predicate Answerable(past: seq<Protocol.Step>, supported: Entry -> bool, digest: Content -> string) {
    var now := Protocol.Run(Protocol.INITIAL, past, digest);
    Issued(now.server, true, now.current, supported, digest).Ok?
  }

  /** The round with this verdict of the agent ends with all revisions equal and the active snapshot current. */
  ghost predicate Converges(past: seq<Protocol.Step>, round: seq<Protocol.Step>, digest: Content -> string) {
    Protocol.Converged(Protocol.Run(Protocol.INITIAL, past + round, digest), digest)
  }

  ghost predicate NeverEmpty(hash: string -> string) {
    forall text :: hash(text) != ""
  }

  /**
  If the agent finds fault only with hashes, one undisturbed round converges exactly when there was nothing new
  to take up or the two encoders agree on every text and key of the new configuration, whose numbers are below 2^53.
  */
  lemma RoundConvergesIffEncodersAgree(past: seq<Protocol.Step>, supported: Entry -> bool, agentId: string, realmId: string, fields: Reading,
                                       hash: string -> string, double: int -> int)
    returns (request: Protocol.Request, response: Protocol.Response, ack: Protocol.Ack)
    requires CanonicalJson.CollisionFree(hash) && CanonicalJson.IsDouble(double) && NeverEmpty(hash)
    requires Answerable(past, supported, ServerDigest(agentId, realmId, fields, hash))
    ensures response.reply.NotModified? ==>
              Converges(past, Protocol.Round(request, response, ack, supported, false), ServerDigest(agentId, realmId, fields, hash))
    ensures response.reply.Desired? && CanonicalJson.Numeric(Hashed(agentId, realmId, response.reply.snapshot.content, fields)) ==>
              (Converges(past, Protocol.Round(request, response, ack, supported,
                                              HashPasses(agentId, realmId, response.reply.snapshot, fields, hash, double)),
                         ServerDigest(agentId, realmId, fields, hash)) <==>
               CanonicalJson.Agreed(Hashed(agentId, realmId, response.reply.snapshot.content, fields)))
  {
    var digest := ServerDigest(agentId, realmId, fields, hash);
    ServerDigestIsDigest(agentId, realmId, fields, hash);
    request, response, ack := Protocol.RoundConvergesIff(past, supported, digest);
    if response.reply.Desired? {
      HashPassesIff(agentId, realmId, response.reply.snapshot, fields, hash, double);
    }
  }

  lemma HashPassesIff(agentId: string, realmId: string, snapshot: Snapshot, fields: Reading, hash: string -> string, double: int -> int)
    requires CanonicalJson.CollisionFree(hash) && CanonicalJson.IsDouble(double)
    requires snapshot.hash == ServerDigest(agentId, realmId, fields, hash)(snapshot.content)
    ensures var value := Hashed(agentId, realmId, snapshot.content, fields);
            CanonicalJson.Numeric(value) ==> (HashPasses(agentId, realmId, snapshot, fields, hash, double) <==> CanonicalJson.Agreed(value))
  {
    var value := Hashed(agentId, realmId, snapshot.content, fields);
    if CanonicalJson.Numeric(value) {
      CanonicalJson.EncodersAgreeIff(value, double);
    }
  }
}
