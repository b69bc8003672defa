# BifrostNMS in Dafny

A model, in Dafny 4.11, of the parts of the BifrostNMS monitoring platform where a mistake would be
hard to see, with proofs of what they promise:

- **Delivery** of observations: the agent's SQLite queue, the batch builder, the upload exchange, the
  control plane's ingestion transaction and the agent's clean-up transaction, as one system in which
  requests, which are texts the control plane has to read, arrive late or twice, responses are lost and the agent restarts.
- **Configuration** of agents: revisions raised by domain operations, snapshots issued and hashed by the
  control plane, activated and acknowledged by the agent, with the same freedom of the network.
- The **durable scheduler**: stored cursors on a time grid, ticks, configuration changes and finishing
  probes interleaved step by step, across restarts.
- The **template tools**: tokenizer, tag matcher and pretty-printer, held against a grammar of templates and rules of
  layout that know nothing of the code.
- **ICMP statistics**, **retry delays** and the **time text** the agent stores.

Objects the source updates in place are classes here, with methods proved against functions on values;
the results about whole runs are lemmas over those functions.  Every step system is a function `Next` on
states and a `Run` over any sequence of steps; a step that is not possible changes nothing.

Hashes, the JSON decoder and compactor, what the database's columns accept, random numbers, clocks and the
network's answers are parameters.
Of the compactor it is assumed that it leaves one JSON value of a valid payload, and of batch identifiers that they need no
escapes: they are hexadecimal digits and dashes.
SHA-256 appears as a function of the content; where collisions matter their absence is a stated premise.

## How the files fit together

| concern | files |
|---|---|
| shared | `Options`, `Ordering`, `Strings`, `Numerals`, `TimeKeys` |
| agent queue, upload, ingestion, delivery | `AgentStore`, `UploadText`, `PayloadText`, `Upload`, `Ingest`, `Delivery`, `Posted`, `Draining`, `Requeue` |
| configuration snapshots and their protocol | `Configuration`, `RevisionProtocol`, `Json`, `JsonUnique`, `CanonicalJson`, `TwoEncoders` |
| monitoring domain | `Domain`, `DomainEffects`, `Maintenance`, `DomainStore`, `GroupHierarchy` |
| scheduler | `Scheduler`, `Ledger`, `SchedulerRuns`, `SchedulerSafety` |
| templates | `Tokens`, `Scanners`, `Tokenizer`, `TokenizerCases`, `Spelling`, `TemplateGrammar`, `TagMatcher`, `TagLinks`, `TemplateFaults`, `LineEnds`, `Layout`, `PrettyPrint`, `Printable`, `PrintedTexts`, `TemplateFormat` |
| statistics | `IcmpStatistics` |

## What turned out to be false, and when it holds

- **Readiness by text comparison.** Within one second the stored times do not compare as instants:
  `ReadinessCanLag` gives a row that is due and not returned.  `TextOrder` says exactly when text and time agree.
  So a row put off can be read again too early, within the second of its next attempt and never in an earlier one:
  `PutOffRowWaits`.
- **Draining the queue.** A clean-up transaction that must quarantine a row already quarantined rolls back as a
  whole, so a fully answered batch can stay: `AnsweredBatchCanStay` is a run in which a quarantined identity is
  queued again and its conclusive answer removes nothing.  `ConclusiveAnswerClears` gives the exact condition;
  `DrainBound` is proved where no pending row is also quarantined, as `RecordedOnceIsApart` shows of every run in which
  no observation is recorded twice: there `ReachableQueueDrains`.
- **One bad row.** The upload schema lets through what a column refuses: a TCP or DNS result whose address is missing or
  is no INET, a clock offset beyond INTEGER.  Such a row aborts the whole upload, and does so again each time it is sent,
  until it is too old: `RolledBackIff`, `RollbackRepeats`, and `BadAddressAbortsUpload` for the address "zz".
- **Snapshots match assignments.** An operation and the raising of revisions it calls for are two commits, except when a
  target is archived.
  `LostRaiseConflicts` is a run in which the process stops between them and the agent is refused from then on;
  `NoConflictBetweenOperations` holds for every agent with no raise owed or lost, and `ConflictIff` says when exactly
  the others are refused.
- **No start after a restore.** The scheduler can start a run of a superseded assignment after its row was restored:
  `LateStartHappens`.  `SupersededNeverAdvances` says exactly when: its cursor had been advanced before the restore.
- **Equal hashes on both sides.** Python and Go escape some characters differently.  `EncodersAgreeIff` gives the exact
  set of values on which they write the same bytes, `BracketsDiffer` a value outside it, and
  `RoundConvergesIffEncodersAgree` what this means for a synchronization: it converges exactly on that set.
- **Tokens join to the text.** Plain text is stripped but the cursor starts at the white space stripped away.  For any
  text the tokens join to it exactly when none was cut as plain text where white space stands: `LosslessIff`.  So they do
  wherever all white space is spaces and newlines (`PlainTextIsKept`), and there the tokenizer ends.  A tab before any
  word loses the tab and repeats the last letter (`LosesItsPlace`); a run of nothing but such white space holds the
  tokenizer for good (`TabNeverEnds`).
- **Every accepted template is printed.** `PrintsIff` says exactly when, on all accepted tokens: no start tag that begins a
  line stands directly inside an element that begins in the middle of one, no other tag is called else, and every end tag
  meets the start last remembered.  The last can fail where only one tag of an element is called code or pre.
  `InlineParentStops` and `TildeStops` are families of texts, among them "a<b>", a newline and "<i></i></b>", and
  "<p>{{#pre~}}{{/pre}}</p>", that are tokenized, accepted and not printed.

## Model

| member | source | states |
|---|---|---|
| `TimeKeys.DayNumberOfDate` | agent/storage/observations.go:238-248 | the calendar date written for a day number reads back as that day number, for every day |
| `TimeKeys.FourDigitYears` | agent/storage/observations.go:238-248 | the instants modelled are exactly those with a year of at most four digits |
| `TimeKeys.ParseFormat` | agent/storage/observations.go:238-248 | parsing a stored time gives back the instant, to the nanosecond |
| `TimeKeys.FormatInjective` | agent/storage/observations.go:238-240 | two instants with one text are one instant, so the text can be a key column |
| `TimeKeys.TextOrder` | agent/storage/observations.go:144-174 | text comparison agrees with time exactly when the seconds differ or the earlier fraction is no prefix of the later |
| `TimeKeys.ReadyWithinOneSecond` | agent/storage/observations.go:144-174 | the readiness test is never wrong by a full second, either way |
| `TimeKeys.ReadinessCanLag` | agent/storage/observations.go:144-174 | a row that is due and that the query does not return |
| `Ordering.FirstInOrder` | agent/storage/observations.go:144-178 | the first rows in a strict order, up to a limit: members of the set, in order, none smaller left out |
| `AgentStore.IdentityInjective` | agent/storage/acknowledgements.go:197-236 | the text under which results are matched to rows determines the time and the observation |
| `AgentStore.EnqueueKeepsPayload` | agent/storage/observations.go:57-142 | an accepted enqueue leaves that payload under that key, every other row as it was, and the queue within its limits |
| `AgentStore.EnqueuesIff` | agent/storage/observations.go:57-142 | an observation is accepted exactly when it is complete and is already queued with that payload or fits within both limits; a conflict exactly when queued with another payload |
| `AgentStore.EnqueuesAsRecorded` | agent/storage/observations.go:57-142 | what is queued already changes nothing; what is new is added as recorded, due at once unless it asks for a later time, and nothing else moves |
| `AgentStore.AcknowledgementEffect` | agent/storage/acknowledgements.go:122-236 | clean-up commits exactly when the response answers each row once and no rejected row is already quarantined; then each row goes where its answer says and no other moves |
| `AgentStore.UntrustedIff` | agent/storage/acknowledgements.go:197-236 | a response is not trusted exactly when it does not answer each row of the batch once or some answer is flawed |
| `AgentStore.AcknowledgementKeepsLimits` | agent/storage/acknowledgements.go:122-195 | clean-up never takes the queue over its count or byte limit |
| `AgentStore.QuarantineMovesPayload` | agent/storage/acknowledgements.go:79-120 | quarantine moves one row with its payload; rows and bytes are conserved |
| `AgentStore.OldestDueFirst` | agent/storage/observations.go:144-178 | by whole seconds: every listed row is due, older ones come first, and a due row is left out only when rows no newer fill the list |
| `AgentStore.ReadyListDistinct` | agent/storage/observations.go:144-178 | no row is listed twice |
| `AgentStore.FailureSticks` | agent/storage/acknowledgements.go:122-195 | once one statement of the clean-up fails the transaction fails as that statement did |
| `AgentStore.ValidateAcknowledgements` | agent/storage/acknowledgements.go:197-236 | succeeds exactly when the results match the rows one to one with permitted dispositions |
| `AgentStore.ReadyInOrder` | agent/storage/observations.go:144-178 | the keys due by now, oldest first, up to the limit |
| `AgentStore.Oldest` | agent/storage/observations.go:214-227 | the least of the stored time texts: the time of some row, and later than no row's by a whole second |
| `AgentStore.Store.QueueStats` | agent/storage/observations.go:211-236 | count and bytes of the pending and of the rejected rows, and the oldest pending time, none exactly when nothing is pending |
| `AgentStore.Store.ReadyObservations` | agent/storage/observations.go:144-178 | the ready list of the queue, unchanged by reading |
| `AgentStore.Store.EnqueueObservation` | agent/storage/observations.go:57-142 | the new queue, or the refusal that applies with the queue unchanged |
| `AgentStore.Store.ApplyAcknowledgements` | agent/storage/acknowledgements.go:122-195 | the loop of deletes, updates and inserts is the transaction, committed as a whole or not at all |
| `AgentStore.Store.QuarantineObservation` | agent/storage/acknowledgements.go:79-120 | the row moved to the rejected table, or nothing changed |
| `AgentStore.Store.RecordSynchronizationFailure` | agent/storage/acknowledgements.go:40-52 | the failure count raised and the next attempt set, rows untouched |
| `Upload.RetryDelayRange` | agent/synchronization/upload.go:100-118 | every delay lies between zero and five minutes, honours the server up to the cap and stays in its window |
| `Upload.WindowGrows` | agent/synchronization/upload.go:100-118 | the window never shrinks with more failures and its product stays inside 64 bits |
| `Upload.WindowDoubles` | agent/synchronization/upload.go:100-118 | one second at first, doubled by each failure up to the cap |
| `Upload.RetryDelayEnds` | agent/synchronization/upload.go:100-118 | the random fraction scales the window: none of it at zero, all of it at one, in proportion between, never less for more |
| `Upload.ServerDelayWins` | agent/synchronization/upload.go:100-118 | once the server asks for at least the window the delay is what it asks for, up to the cap |
| `Upload.ServerDelayIs` | agent/synchronization/client.go:111-114 | the seconds a response asks for are the delay, where they fit a duration |
| `UploadText.ElementsReadBack` | agent/synchronization/upload.go:76-90 | values written between brackets with commas are read back, each as it was |
| `UploadText.ObjectReadsBack` | agent/protocol/types.go:119-125 | an object is read back member by member |
| `UploadText.LookupFinds` | agent/protocol/types.go:119-125 | a member is found under its name, whatever stands in the others |
| `PayloadText.EveryValueIsSingle` | agent/synchronization/upload.go:72-77 | any JSON value as either encoder writes it is read as one value: commas, quotes and brackets in its texts do no harm |
| `Upload.BodyReadsBack` | agent/synchronization/upload.go:66-80 | reading a request body gives back both versions, the revision, the batch and every payload, in order |
| `Upload.SelectRows` | agent/synchronization/upload.go:48-98 | the longest prefix of the ready rows of one revision that fits both limits, with a body from which exactly these rows, their revision and the batch are read back; or the row that cannot be sent |
| `Upload.GrowBatch` | agent/synchronization/upload.go:60-98 | the growing loop stops at the first row that is of another revision, malformed or one too many, and its body is that of its rows |
| `Upload.BuildBatch` | agent/synchronization/upload.go:48-98 | the batch of the store's ready list, empty when nothing is ready; whoever reads its body learns exactly what it holds |
| `Upload.BatchWithinLimits` | agent/synchronization/upload.go:48-98 | a batch is a non-empty prefix of valid rows within both limits, of one revision, with its serialized upload as body; a row is refused as malformed exactly when it is, and as too large only alone and over the limit |
| `Upload.QuarantineUnsendable` | agent/synchronization/client.go:40-62 | a row that can never be sent is set aside so that it cannot hold up the queue |
| `Upload.SettleExchange` | agent/synchronization/client.go:73-134 | the queue after any response, trusted or not |
| `Upload.Dispatch` | agent/synchronization/client.go:40-134 | what one built batch does to the queue: set aside, nothing, or exchanged |
| `Upload.UploadOnce` | agent/synchronization/client.go:31-134 | one call: nothing while backing off, otherwise one batch of the ready rows, its body readable as exactly that batch, and its exchange |
| `Upload.AnswersApplied` | agent/synchronization/client.go:73-134 | if an answer is taken, each row of the batch is where its own element of it says: gone, put off, or quarantined with that code |
| `Upload.PutOffRowWaits` | agent/storage/observations.go:144-174 | a row put off is read again in no earlier second and in every later one, and a delay the server asked for is kept |
| `Upload.ForeignAnswerMovesNothing` | agent/synchronization/client.go:73-134 | an answer of another version or batch, or none, moves no row and counts a failure |
| `Upload.FailureBacksOff` | agent/synchronization/client.go:136-144 | after a failure nothing is uploaded exactly until the delay is over, at least what the server asked for up to the cap |
| `Upload.UnsendableIsQuarantined` | agent/synchronization/client.go:40-62 | a row that can never be sent is quarantined with its payload under the reason that applies |
| `Upload.ConclusiveAnswerClears` | agent/synchronization/client.go:73-134 | an answer without retryable results empties its batch out of the queue exactly when none of its rejected rows is already quarantined |
| `Upload.ConclusiveCallShrinks` | agent/synchronization/client.go:40-133 | each conclusive call with rows ready removes at least one |
| `Upload.DrainBound` | agent/synchronization/client.go:40-133 | n rows are gone after at most n such calls |
| `Ingest.AnswersAlign` | backend/bifrostnms/agents/observations.py:203-260 | answer i is about row i: accepted or duplicate exactly when the row is admissible and stored under its hash, otherwise the refusal that is due |
| `Ingest.AnswerIsDue` | backend/bifrostnms/agents/observations.py:101-260 | each answer is determined by snapshot, clock, what was stored and the rows ahead: one code exactly for each first condition that fails, accepted exactly for the first admissible row of a new identity |
| `Ingest.IngestAnswers` | backend/bifrostnms/agents/observations.py:203-260 | a committed upload keeps every stored row, answers each row in order with what is due to it, and stores nothing for an unknown revision |
| `Ingest.NewRowsAreUploaded` | backend/bifrostnms/agents/observations.py:44-98 | every new row is one of the upload, under its own hash, agent and revision |
| `Ingest.ReplayAddsNothing` | backend/bifrostnms/agents/observations.py:203-260 | a stored observation anywhere in any later upload leaves tables and all other answers as if it had not been sent |
| `Ingest.ReplayIsHarmless` | backend/bifrostnms/agents/observations.py:203-260 | what one upload answered accepted or duplicate adds nothing to any later one, among any other rows, and is answered duplicate, or too old, under the same snapshot |
| `Ingest.ReplayedBatch` | backend/bifrostnms/agents/observations.py:203-260 | a batch of stored observations leaves every table as it was |
| `Ingest.IngestConcatenation` | backend/bifrostnms/agents/observations.py:203-260 | one upload is its parts in order, tables and answers alike |
| `Ingest.RolledBackIff` | backend/bifrostnms/agents/observations.py:101-260 | an upload is rolled back exactly when some row that no check refuses has a value its columns do not accept |
| `Ingest.RollbackRepeats` | backend/bifrostnms/agents/observations.py:101-260 | sending it again is rolled back again while that row is neither stored nor refused |
| `Ingest.BadAddressAbortsUpload` | backend/bifrostnms/migrations/0007_add_observation_hypertables.py:138-153 | a good TCP result is lost with one whose address is missing or is no INET, which the upload schema admits |
| `Ingest.AbortSticks` | backend/bifrostnms/agents/observations.py:203-260 | nothing after the failing row can rescue the transaction |
| `Ingest.ObservationTables.IngestObservations` | backend/bifrostnms/agents/observations.py:203-260 | the loop of inserts is the transaction: each row gets the answer due to it, an unknown revision is answered so for every row, and a rollback leaves the tables as they were |
| `Delivery.NothingIsLost` | agent/synchronization/client.go:31-134 | in every run each enqueued observation is pending, quarantined or on the server under its hash, one row per identity |
| `Delivery.NoSpuriousRejection` | backend/bifrostnms/agents/observations.py:206-227 | in every run no observation of an activated snapshot is refused for its configuration, monitor or monitor revision |
| `Delivery.StoredOnceForAll` | backend/bifrostnms/agents/observations.py:44-98 | what the server has stored stays as first stored, through every later step |
| `Delivery.ReplayNeverHarms` | backend/bifrostnms/agents/observations.py:203-260 | in every run, once a row was answered accepted or duplicate, no later upload is changed by carrying it again |
| `Posted.EveryRequestIsRead` | backend/bifrostnms/api/agent_protocol.py:157-186 | in every run every request posted is one the control plane reads within its limit and versions, under the identifier the agent waits for, and each observation in it is the compacted payload of one the queue accepted |
| `Draining.RecordedOnceIsApart` | agent/storage/observations.go:57-142 | in every run that records no observation twice no pending row is also quarantined |
| `Draining.ReachableQueueDrains` | agent/synchronization/client.go:31-134 | from any state of such a run n conclusive calls remove at least n rows |
| `Requeue.AnsweredBatchCanStay` | agent/storage/acknowledgements.go:122-195 | a run that ends with a conclusive answer to the batch in flight and the queue as full as before |
| `Configuration.BumpKeeps` | backend/bifrostnms/monitoring/domain.py:72-92 | raising the desired revision keeps the row valid and every issued snapshot |
| `Configuration.IssueKeeps` | backend/bifrostnms/agents/configuration.py:86-179 | an issued snapshot is that of the desired revision and hashes like the present assignments; nothing issued changes |
| `Configuration.IssuedIff` | backend/bifrostnms/agents/configuration.py:86-179 | issued exactly when capabilities were announced, cover every entry and the desired revision has no snapshot of other content; the first of these that fails is the error |
| `Configuration.AcknowledgeKeeps` | backend/bifrostnms/agents/configuration.py:182-229 | an acknowledgement moves the acknowledged revision up or not at all; a late or repeated one changes nothing |
| `Configuration.CollectEntries` | backend/bifrostnms/agents/configuration.py:130-146 | all entries in order, or the first monitor the agent cannot run |
| `Configuration.ConfigurationTable.Bump` | backend/bifrostnms/monitoring/domain.py:72-92 | desired revision one higher, its hash cleared |
| `Configuration.ConfigurationTable.GetOrCreateConfiguration` | backend/bifrostnms/agents/configuration.py:86-179 | the state row and snapshot table after a request, or the refusal with both unchanged |
| `Configuration.ConfigurationTable.AcknowledgeConfiguration` | backend/bifrostnms/agents/configuration.py:182-229 | the state row after an acknowledgement, or the refusal with it unchanged |
| `Configuration.ActivationEffect` | agent/storage/configuration.go:27-102 | exactly one row is active, the new one, and besides it only the newest of the others is kept, content untouched |
| `Configuration.ActivatesIff` | agent/storage/configuration.go:27-102 | activated exactly unless incomplete or known with other content |
| `Configuration.ConfigurationStore.ActivateConfiguration` | agent/storage/configuration.go:27-102 | the table after clearing, storing and pruning, or unchanged on a conflict |
| `RevisionProtocol.RevisionChain` | agent/synchronization/control_plane.go:28-94 | in every run acknowledged <= active <= desired, so the table's check never fires, and what is acknowledged or active was issued |
| `RevisionProtocol.RevisionsNeverDecrease` | backend/bifrostnms/agents/configuration.py:86-229 | none of the three revisions ever decreases and issued or activated content never changes |
| `RevisionProtocol.ActivatedIsIssued` | agent/storage/configuration.go:27-102 | whatever the agent ever activated is for good the server's snapshot of that revision |
| `RevisionProtocol.UndisturbedRoundConverges` | agent/synchronization/control_plane.go:28-94 | from any reachable state a restart, one poll, its answer, its activation and its acknowledgement make the three revisions equal and the active snapshot current |
| `RevisionProtocol.RoundConvergesIff` | agent/synchronization/control_plane.go:28-94 | with the agent's verdict left open such a round converges exactly when it is favourable or there was nothing new |
| `TwoEncoders.RoundConvergesIffEncodersAgree` | agent/protocol/types.go:195-208 | with each side hashing by its own encoder a round that brings something new converges exactly when the encoders agree on it |
| `Numerals.DecimalUnique` | agent/protocol/types.go:195-200 | a decimal integer can be told from whatever follows it |
| `Json.NormalIgnoresOrder` | backend/bifrostnms/agents/configuration.py:153-153 | two objects have one sorted form exactly when they are the same map of keys to values |
| `JsonUnique.NormalAll` | backend/bifrostnms/agents/configuration.py:153-153 | sorting keys neither adds nor loses a text, a key or a number |
| `JsonUnique.CanonicalUnique` | backend/bifrostnms/agents/configuration.py:153-154 | canonical texts are equal exactly when the values are equal up to the order of keys |
| `CanonicalJson.CharsAgreeIff` | agent/protocol/types.go:195-200 | the exact characters both encoders write alike; on any other they differ at once |
| `CanonicalJson.EncodersAgreeIff` | agent/protocol/types.go:195-205 | the Python and Go encoders write the same text exactly when every text and key is of those characters |
| `CanonicalJson.BracketsDiffer` | agent/protocol/types.go:195-200 | an angle bracket: left alone by one encoder, escaped by the other |
| `CanonicalJson.EqualHashIffEqualUpToKeyOrder` | agent/protocol/types.go:195-208 | on printable ASCII without angle brackets and ampersand, equal hashes mean equal configurations and conversely |
| `CanonicalJson.ContentDeterminesMonitors` | backend/bifrostnms/agents/configuration.py:115-154 | what is hashed is the same exactly when agent, realm and the monitors, in order and field by field, are |
| `CanonicalJson.EqualHashIffSameMonitors` | agent/protocol/types.go:177-208 | so both sides compute one hash exactly when they hashed the same monitors |
| `CanonicalJson.CheckMonitors` | agent/protocol/types.go:157-175 | passes exactly when monitors are distinct, supported and sensibly scheduled |
| `CanonicalJson.Validate` | agent/protocol/types.go:148-209 | accepts exactly a configuration of the right version and identity whose monitors pass and whose hash is that of its canonical text |
| `CanonicalJson.UnalteredPassesIff` | agent/protocol/types.go:195-208 | a configuration as the control plane hashed it passes exactly when the encoders agree on its characters |
| `Domain.ViewsAgree` | backend/bifrostnms/monitoring/dashboard.py:104-171 | the dashboard's pairs, the built configuration and the domain's effective agents are one relation |
| `Domain.SameRealmKept` | backend/bifrostnms/monitoring/domain.py:94-402 | no operation lets a relationship cross a realm |
| `Domain.RevisionsMaintained` | backend/bifrostnms/monitoring/domain.py:72-402 | whichever operation changes what an active agent would be given also raises its desired revision |
| `Domain.AgentsKept` | backend/bifrostnms/monitoring/domain.py:94-402 | no operation enables, disables or archives an agent |
| `DomainEffects.GivenIsEntry` | backend/bifrostnms/agents/configuration.py:115-146 | an agent's built configuration holds a monitor exactly when both are in use and an assignment, its own or of a group of its, reaches it, and then with the monitor's and the target's present values |
| `DomainEffects.EveryOperationTakesEffect` | backend/bifrostnms/monitoring/domain.py:94-402 | after any operation each agent is given of each monitor exactly what the operation stands for, and no other pair changes |
| `DomainEffects.RefusedInOrder` | backend/bifrostnms/monitoring/domain.py:94-402 | an operation is carried out exactly when it is permitted, and otherwise refused for the first of its conditions that fails |
| `DomainEffects.ArchiveRetires` | backend/bifrostnms/monitoring/domain.py:386-402 | an archived target and its monitors are out of use |
| `DomainEffects.RetiredForGood` | backend/bifrostnms/monitoring/domain.py:94-402 | and no later operation brings them back |
| `DomainEffects.OnlyConcernedAreRaised` | backend/bifrostnms/monitoring/domain.py:125-402 | an operation raises the revision of agents it names, that belong to a group it names or that a monitor of it reaches, and of no others |
| `Maintenance.BuiltIsWellFormed` | backend/bifrostnms/agents/configuration.py:115-146 | a built configuration lists each monitor once and is determined by the relation |
| `Maintenance.NoConflictBetweenOperations` | backend/bifrostnms/agents/configuration.py:115-168 | in every run an active agent with no raise owed or lost has a current snapshot and is never refused with a conflict |
| `Maintenance.ConflictIff` | backend/bifrostnms/agents/configuration.py:115-168 | in every run an active agent with supported monitors is refused with a conflict exactly when a raise is owed or lost and the revision it would be given was issued for other content |
| `Maintenance.LostRaiseConflicts` | backend/bifrostnms/monitoring/domain.py:269-287 | a run in which a stop between an operation and its raise leads to that refusal |
| `DomainStore.BumpEach` | backend/bifrostnms/monitoring/domain.py:72-92 | each listed agent's revision raised once, no other touched |
| `DomainStore.AffectedAgents` | backend/bifrostnms/monitoring/domain.py:386-402 | the agents any monitor of the target reaches |
| `DomainStore.OperationMaintains` | backend/bifrostnms/monitoring/domain.py:72-402 | any operation with its raise keeps relationships within a realm and leaves every active agent whose configuration changed with a higher desired revision |
| `DomainStore.MonitoringDomain.BumpConfigurationRevisions` | backend/bifrostnms/monitoring/domain.py:72-92 | the revision rows after a raise |
| `DomainStore.MonitoringDomain.RaiseAffected` | backend/bifrostnms/monitoring/domain.py:72-92 | after a committed operation every active agent whose configuration it changed has a higher desired revision, nothing crosses a realm, and the operation's own effect stands |
| `DomainStore.MonitoringDomain.RewriteMonitor` | backend/bifrostnms/monitoring/domain.py:135-170 | the tables with the monitor rewritten, its revision raised if anything changed and the agents affected, so that every agent is given what the operation stands for; otherwise the first fault that applies, with the tables unchanged |
| `DomainStore.MonitoringDomain.UpdateMonitorBehavior` | backend/bifrostnms/monitoring/domain.py:125-172 | that with its raise: carried out with its effect on every agent exactly when permitted, and no changed configuration of an active agent keeps its desired revision; relationships stay within a realm |
| `DomainStore.MonitoringDomain.InsertMember` | backend/bifrostnms/monitoring/domain.py:230-239 | the tables with one member more and the agents affected, so that every agent is given what the operation stands for; otherwise the first fault that applies, with the tables unchanged |
| `DomainStore.MonitoringDomain.AddAgentToGroup` | backend/bifrostnms/monitoring/domain.py:227-241 | that with its raise: carried out with its effect on every agent exactly when permitted, and no changed configuration of an active agent keeps its desired revision; relationships stay within a realm |
| `DomainStore.MonitoringDomain.DeleteMember` | backend/bifrostnms/monitoring/domain.py:256-264 | the tables with the member gone and the agents affected, so that every agent is given what the operation stands for; otherwise the first fault that applies, with the tables unchanged |
| `DomainStore.MonitoringDomain.RemoveAgentFromGroup` | backend/bifrostnms/monitoring/domain.py:255-266 | that with its raise: carried out with its effect on every agent exactly when permitted, and no changed configuration of an active agent keeps its desired revision; relationships stay within a realm |
| `DomainStore.MonitoringDomain.InsertDirect` | backend/bifrostnms/monitoring/domain.py:272-285 | the tables with the assignment made or enabled and the agents affected, so that every agent is given what the operation stands for; otherwise the first fault that applies, with the tables unchanged |
| `DomainStore.MonitoringDomain.AssignMonitorToAgent` | backend/bifrostnms/monitoring/domain.py:269-287 | that with its raise: carried out with its effect on every agent exactly when permitted, and no changed configuration of an active agent keeps its desired revision; relationships stay within a realm |
| `DomainStore.MonitoringDomain.InsertGrouped` | backend/bifrostnms/monitoring/domain.py:293-315 | the tables with the group assignment made or enabled and the agents affected, so that every agent is given what the operation stands for; otherwise the first fault that applies, with the tables unchanged |
| `DomainStore.MonitoringDomain.AssignMonitorToAgentGroup` | backend/bifrostnms/monitoring/domain.py:290-317 | that with its raise: carried out with its effect on every agent exactly when permitted, and no changed configuration of an active agent keeps its desired revision; relationships stay within a realm |
| `DomainStore.MonitoringDomain.DeleteDirect` | backend/bifrostnms/monitoring/domain.py:321-325 | the tables with the assignment gone and the agents affected, so that every agent is given what the operation stands for; otherwise the first fault that applies, with the tables unchanged |
| `DomainStore.MonitoringDomain.UnassignMonitorFromAgent` | backend/bifrostnms/monitoring/domain.py:320-327 | that with its raise: carried out with its effect on every agent exactly when permitted, and no changed configuration of an active agent keeps its desired revision; relationships stay within a realm |
| `DomainStore.MonitoringDomain.DeleteGrouped` | backend/bifrostnms/monitoring/domain.py:333-346 | the tables with the group assignment gone and the agents affected, so that every agent is given what the operation stands for; otherwise the first fault that applies, with the tables unchanged |
| `DomainStore.MonitoringDomain.UnassignMonitorFromAgentGroup` | backend/bifrostnms/monitoring/domain.py:330-348 | that with its raise: carried out with its effect on every agent exactly when permitted, and no changed configuration of an active agent keeps its desired revision; relationships stay within a realm |
| `DomainStore.MonitoringDomain.ArchiveRows` | backend/bifrostnms/monitoring/domain.py:387-401 | the tables with target and monitors archived and the agents affected, so that every agent is given what the operation stands for; otherwise the first fault that applies, with the tables unchanged |
| `DomainStore.MonitoringDomain.ArchiveTarget` | backend/bifrostnms/monitoring/domain.py:386-402 | that with its raise: carried out with its effect on every agent exactly when permitted, and no changed configuration of an active agent keeps its desired revision; relationships stay within a realm |
| `GroupHierarchy.RootedHasNoCycle` | backend/bifrostnms/monitoring/domain.py:175-224 | if every walk up ends, no group is its own ancestor |
| `GroupHierarchy.MoveKeepsRooted` | backend/bifrostnms/monitoring/domain.py:175-224 | a move whose walk ended without meeting the group keeps every walk ending |
| `GroupHierarchy.GroupTable.AssertParent` | backend/bifrostnms/monitoring/domain.py:175-191 | passes exactly when the walk from the new parent ends within the depth limit without meeting the group |
| `GroupHierarchy.GroupTable.Move` | backend/bifrostnms/monitoring/domain.py:194-198 | the group has the new parent and no other group moves, exactly when parent and group share a realm, are in use and the walk up from the parent ends within the limit without meeting the group; the hierarchy stays free of cycles, and unchanged on refusal |
| `Scheduler.CaughtUpIsNext` | agent/storage/scheduler.go:49-52 | the closed form with floor division is the first slot after now, and counts exactly the slots up to now |
| `Scheduler.CatchUp` | agent/scheduler/scheduler.go:175-185 | both catch-up loops compute that closed form |
| `Scheduler.Jitter` | agent/scheduler/scheduler.go:314-321 | the first run falls within the first tenth of the interval |
| `Scheduler.JitterSpreads` | agent/scheduler/scheduler.go:314-321 | two monitors start together exactly when their digests agree modulo a tenth of the interval |
| `Scheduler.SkippedSlots` | agent/scheduler/scheduler.go:177-185 | the slots reported as skipped are consecutive and after the one claimed |
| `Scheduler.ScheduleStore.RestoreSchedule` | agent/storage/scheduler.go:20-79 | the row caught up with its missed slots counted if it was of these revisions, else a new row |
| `Scheduler.ScheduleStore.AdvanceSchedule` | agent/storage/scheduler.go:81-105 | the cursor moves only if the row carries the job's revisions; otherwise an error and no change |
| `Scheduler.ScheduleStore.RemoveSchedulesExcept` | agent/storage/scheduler.go:107-124 | exactly the listed rows are kept |
| `Scheduler.Validated` | agent/scheduler/scheduler.go:108-131 | passes exactly when every assignment is sound and none repeated, with one new job for each |
| `Scheduler.Ticker.Reconcile` | agent/scheduler/scheduler.go:105-163 | refused without change unless all assignments are sound; else each job stands at its restored cursor and no other row is left |
| `Scheduler.Ticker.RestoreAll` | agent/scheduler/scheduler.go:133-147 | every candidate restored from the rows as they were, whatever the order |
| `Scheduler.Ticker.Visit` | agent/scheduler/scheduler.go:170-214 | one due job: cursor moved, its slots started or reported, nothing else touched; refused if the row is not its own |
| `Scheduler.Ticker.Tick` | agent/scheduler/scheduler.go:166-217 | completes exactly when every due job's row is its own; then all due jobs are past now, one went unstarted only if still running or the pool was full, and the report has, for each due job, exactly the slots it skipped and the one not started, with the reason |
| `Ledger.OfferKeeps` | agent/scheduler/scheduler.go:105-131 | taking up a new configuration keeps every cursor in step with the record of its slots |
| `Ledger.RestoreKeeps` | agent/storage/scheduler.go:20-79 | so does restoring a row |
| `Ledger.AdvanceKeeps` | agent/storage/scheduler.go:81-105 | so does advancing one |
| `Ledger.PruneKeeps` | agent/storage/scheduler.go:107-124 | so does removing the others |
| `SchedulerRuns.StepFits` | agent/scheduler/scheduler.go:105-217 | every interleaved step keeps jobs, candidates and stored rows in agreement and forgets no slot |
| `SchedulerSafety.PoolStep` | agent/scheduler/scheduler.go:186-250 | every step keeps the worker pool sound |
| `SchedulerSafety.LogStep` | agent/scheduler/scheduler.go:195-214 | every step keeps the record of restores, advances and starts in agreement with the store |
| `SchedulerSafety.SlotAccounting` | agent/scheduler/scheduler.go:166-217 | in every run a stored cursor is its first due time plus an interval for each slot claimed or missed, the stored count is the slots missed, and each slot before it is recorded once |
| `SchedulerSafety.StartedWasClaimed` | agent/scheduler/scheduler.go:195-214 | a run starts only for a slot recorded as claimed |
| `SchedulerSafety.NoSlotRunsTwice` | agent/scheduler/scheduler.go:195-214 | no slot runs twice, even if the agent stops between advancing and starting |
| `SchedulerSafety.SupersededNeverAdvances` | agent/storage/scheduler.go:81-105 | after a restore for a newer configuration no older one advances the cursor, and starts only what it had advanced before |
| `SchedulerSafety.RefusedOnlyDuringChange` | agent/scheduler/scheduler.go:195-202 | a tick fails only while a configuration change is under way |
| `SchedulerSafety.WorkerSafety` | agent/scheduler/scheduler.go:186-250 | tokens are live executions, never more than the pool; one unfinished execution per monitor; taking a token never blocks |
| `SchedulerSafety.DueRunStarts` | agent/scheduler/scheduler.go:166-217 | in any run, a due job whose monitor is idle, whose row is its own and for which a worker is free is advanced past now and started |
| `SchedulerSafety.FinishedProbeFreesWorker` | agent/scheduler/scheduler.go:219-251 | in any run, a probe that publishes and ends gives its worker back and its monitor may run again; nothing else changes |
| `SchedulerSafety.LateStart` | agent/scheduler/scheduler.go:195-214 | from any claim already advanced, a restore for a newer configuration does not stop the start |
| `SchedulerSafety.LateStartHappens` | agent/scheduler/scheduler.go:133-163 | a run in which a superseded assignment starts after its row was restored |
| `Scanners.StrippedAwayIff` | tools/lib/template_parser.py:681-686 | a text run is stripped to nothing exactly when it is all white space |
| `Scanners.TextInPlaceIff` | tools/lib/template_parser.py:681-686 | a text token stands at its offset exactly when no white space stands there |
| `Scanners.GetSpaces` | tools/lib/template_parser.py:665-670 | the whole run of spaces |
| `Scanners.GetCode` | tools/lib/template_parser.py:673-678 | everything up to the next angle bracket |
| `Scanners.GetText` | tools/lib/template_parser.py:681-686 | the run up to a brace or angle bracket, stripped |
| `Scanners.GetHandlebarsTag` | tools/lib/template_parser.py:643-650 | ends at the first closing braces; fails exactly when the first brace opens none |
| `Scanners.GetTripleStache` | tools/lib/template_parser.py:653-662 | ends at the first triple closing; fails exactly when the first brace opens none |
| `Scanners.GetDjangoTag` | tools/lib/template_parser.py:689-698 | ends at the first closing mark; fails exactly when the first percent sign opens none, past the end of the text exactly when none but its last character is one |
| `Scanners.GetHtmlTag` | tools/lib/template_parser.py:701-719 | ends at the first angle bracket outside quotes; fails exactly when there is none, for unbalanced quotes or for the bracket |
| `Scanners.GetClosed` | tools/lib/template_parser.py:722-782 | ends behind the first closing mark; which of two errors is raised when there is none |
| `Scanners.GetTemplateVar` | tools/lib/template_parser.py:746-757 | ends behind the first closing brace and one that follows it; which of two errors is raised when there is none |
| `Tokenizer.LineStartIs` | tools/lib/template_parser.py:56-63 | nothing but the current line lies between its start and the offset |
| `Tokenizer.Scan` | tools/lib/template_parser.py:131-260 | the token at an offset ends where its kind says, beyond the offset; fails exactly when it has no end, and with what |
| `Tokenizer.Cursor.Advance` | tools/lib/template_parser.py:56-63 | the counters are the line and column of the offset |
| `Tokenizer.Cursor.Piece` | tools/lib/template_parser.py:131-260 | what is cut at the cursor, for any text; empty exactly for an empty code block or plain text of nothing but white space; fails exactly when it has no end, and with what |
| `Tokenizer.Cursor.Cut` | tools/lib/template_parser.py:132-275 | kind, tag, position and line span of the piece |
| `Tokenizer.Cursor.Tokenize` | tools/lib/template_parser.py:53-278 | for any text each token is what stands behind those before it, with its kind, tag, line and column; returns at the end of the text, fails where the next has no end or no name, with the error of that place, and stays for good where plain text is due and only white space stands |
| `Tokenizer.LosslessIff` | tools/lib/template_parser.py:53-278 | tokens of a whole text join to it exactly when none was cut as plain text where white space stands |
| `Tokenizer.PlainTextIsKept` | tools/lib/template_parser.py:53-278 | on a text whose white space is all spaces and newlines the tokenizer ends, and the tokens it returns join to the text |
| `TokenizerCases.OutcomeUnique` | tools/lib/template_parser.py:53-278 | a text and its format determine the outcome: the tokens, whether the tokenizer returns, fails or stays, and the error |
| `Spelling.EveryTokenIsSpelled` | tools/lib/template_parser.py:131-275 | kind and tag of every token fit its text: it opens and closes with the marks of its kind, the tag is what stands between them or its first word, and only what opens with no mark of the format is a variable |
| `TokenizerCases.LosesItsPlace` | tools/lib/template_parser.py:252-275 | a tab, or other such white space, before any word: the tab is lost and the last letter comes twice |
| `TokenizerCases.TabNeverEnds` | tools/lib/template_parser.py:252-275 | on a tab alone the tokenizer never ends |
| `TagMatcher.Checker.StartTagMatcher` | tools/lib/template_parser.py:417-489 | one more start tag waited for |
| `TagMatcher.Checker.Match` | tools/lib/template_parser.py:429-487 | the end token is taken exactly when a start tag waits and the two fit by name, or as an else of an if, else or unless, and no code tag is split; otherwise the problem reported |
| `TagMatcher.Checker.Validate` | tools/lib/template_parser.py:491-512 | the loop over the tokens accepts exactly the templates of the grammar |
| `TagMatcher.ForestPasses` | tools/lib/template_parser.py:417-512 | in front of a balanced piece the matcher comes out waiting for what it waited for |
| `TagMatcher.AcceptedIsForest` | tools/lib/template_parser.py:417-512 | what an accepting matcher reads is a balanced piece, up to the end of the tag it waits for |
| `TagMatcher.MatcherIsGrammar` | tools/lib/template_parser.py:280-512 | the matcher accepts exactly the templates of a grammar on the tokens' own kinds and tags: forests of elements whose tags agree in name, else only where it may stand, void and self-closing tags as the element around them allows |
| `TagMatcher.RulesAreGrammar` | tools/lib/template_parser.py:324-512 | what the matching machine's rules derive inside given elements is what the grammar derives there |
| `TemplateFaults.ReadsWhileCompletable` | tools/lib/template_parser.py:417-512 | the matcher reads on exactly while what it has read can still become a template |
| `TemplateFaults.MissingEndIffBrokenOff` | tools/lib/template_parser.py:429-440 | a missing end tag is reported exactly for what is no template but can still become one |
| `TagLinks.AcceptedIsLinked` | tools/lib/template_parser.py:480-512 | on an accepted template exactly the opening tokens have an end and exactly the closing ones a start, and the two fit; starts and true closers point at each other, properly nested; an else points at the element directly around it |
| `LineEnds.SettledKeepsSolid` | tools/lib/pretty_print.py:130-145 | dropping white space at the ends of lines keeps every other character in order |
| `PrettyPrint.RefittedReads` | tools/lib/pretty_print.py:108-127 | re-indenting the later lines of a token changes nothing but white space at line ends |
| `PrettyPrint.PiecesSettle` | tools/lib/pretty_print.py:136-145 | pieces that read like their tokens join to a text that reads like the tokens joined |
| `Layout.IndentsDetermined` | tools/lib/pretty_print.py:41-105 | the rules of indentation allow one indent for each token |
| `Layout.PrintDetermined` | tools/lib/pretty_print.py:8-145 | tokens and links have one print: the rules of layout determine every character of it |
| `PrettyPrint.RefittedLines` | tools/lib/pretty_print.py:108-127 | a token of several lines keeps its first line, and each later one is stripped and put under its indent, an empty one left empty |
| `PrettyPrint.Printer.ShiftIndents` | tools/lib/pretty_print.py:8-25 | the indent and remaining text of every token after the first pass |
| `PrettyPrint.Printer.MarkChild` | tools/lib/pretty_print.py:59-66 | the first line inside an element settles, for good, how far its lines are indented |
| `PrettyPrint.Printer.AdjustElse` | tools/lib/pretty_print.py:48-57 | an else that begins a line is lined up with its start; fails exactly when it has none |
| `PrettyPrint.Printer.AdjustStart` | tools/lib/pretty_print.py:69-80 | a start token is indented as its place in the element around it calls for; fails exactly when it begins a line and the one around it does not |
| `PrettyPrint.Printer.AdjustEnd` | tools/lib/pretty_print.py:83-95 | an end token gets its start's indent and the start is forgotten; fails exactly when another start is remembered last |
| `PrettyPrint.Printer.AdjustPlain` | tools/lib/pretty_print.py:97-105 | any other token is indented as its place in the element around it calls for |
| `PrettyPrint.Printer.AdjustOne` | tools/lib/pretty_print.py:44-105 | one token, its indent only, as the rules of layout say; the start tokens around the next one, or failure exactly when the walk stops here |
| `PrettyPrint.Printer.AdjustIndentation` | tools/lib/pretty_print.py:41-105 | after the second pass every token that begins a line has the indent its place calls for: an end or else its start's, a line inside an element four spaces more than the element or, where its first line stands below a block's start, the same; fails exactly when the walk over starts and ends stops |
| `PrettyPrint.Printer.FixMultiLineTags` | tools/lib/pretty_print.py:108-127 | the later lines of every token that spans lines put under its indent |
| `PrettyPrint.Printer.ApplyIndents` | tools/lib/pretty_print.py:130-133 | each indent put in front of its token, none where there is none |
| `PrettyPrint.Printer.PrettyPrintHtml` | tools/lib/pretty_print.py:136-145 | the printed text is the tokens in order, each line under the indent its place calls for, later lines of a token stripped and put under it; compared with the tokens nothing changes but the white space at the two ends of lines; fails exactly when there is no token or the second pass stops |
| `Printable.PrintsIff` | tools/lib/pretty_print.py:41-105 | on all accepted tokens the second pass gets through exactly when no unclaimed token is called else, no start that begins a line stands directly inside an element that begins within one, and every end token meets the start last remembered |
| `PrintedTexts.InlineParentStops` | tools/lib/pretty_print.py:69-75 | a family of texts, tokenized and accepted, on which the printer's assertion about child indents fails |
| `PrintedTexts.TildeStops` | tools/lib/pretty_print.py:48-91 | another, on which an end tag does not meet its start because only one tag of the element inside is passed over |
| `TemplateFormat.TokenizedIsWellCut` | tools/lib/template_parser.py:131-278 | whatever the tokenizer cuts is what the printer relies on |
| `TemplateFormat.SolidKeptIff` | tools/lib/template_parser.py:252-275 | tokens keep the characters of the text that are not white space, or its lines up to their ends, exactly when none slipped: each slip repeats some |
| `TemplateFormat.Printed` | tools/lib/pretty_print.py:136-162 | what is printed is the one print of the tokens; nothing is printed exactly when there is no token or the walk stops |
| `TemplateFormat.Checked` | tools/lib/template_parser.py:491-516 | refused by the matcher exactly outside the grammar, for a missing end exactly when it can still become a template; not printed exactly when the printer stops; what is printed is the one print of the tokens and reads like them |
| `TemplateFormat.Reformat` | tools/lib/pretty_print.py:152-162 | for any text: the print of its tokens under their links; from text to text only white space at the ends of lines changes, exactly when no token slipped, as on every text of spaces and newlines; and which of the four ways of not printing occurs when, the matcher's exactly outside the grammar |
| `IcmpStatistics.PercentileMonotone` | agent/probes/icmp/result.go:62-71 | a larger fraction never gives a smaller percentile, and all lie between the least and the greatest sample |
| `IcmpStatistics.MedianIs` | agent/probes/icmp/result.go:62-71 | the median is the middle sample, or the mean of the middle two |
| `IcmpStatistics.OrderIndependent` | agent/probes/icmp/result.go:39-50 | the summary does not depend on the order of the samples |
| `IcmpStatistics.SummaryOrdered` | agent/probes/icmp/result.go:39-50 | minimum <= median <= p95 <= maximum and minimum <= average <= maximum, both ends being samples |
| `IcmpStatistics.JitterBounded` | agent/probes/icmp/result.go:51-58 | jitter is at most the spread of the samples |
| `IcmpStatistics.JitterZeroIff` | agent/probes/icmp/result.go:51-58 | jitter is zero exactly when all samples are equal |
| `IcmpStatistics.TravelStraight` | agent/probes/icmp/result.go:51-58 | on samples that only rise or only fall the differences add up to the spread |
| `IcmpStatistics.LossIsPercentage` | agent/probes/icmp/result.go:31-35 | loss and the share received add up to 100; 0 or 100 exactly when all or no packets came back |
| `IcmpStatistics.Sort` | agent/probes/icmp/result.go:39-40 | ascending, and the same samples |
| `IcmpStatistics.CalculateResult` | agent/probes/icmp/result.go:22-60 | accepts exactly sound counts and samples, and its figures are those of the samples with the orders above; jitter zero exactly for equal samples |

## Left out

- HTTP, headers, authentication, database drivers and the object-relational layer: transactions are atomic steps and tables are maps.
- Domain operations run one at a time; only the raising of revisions is interleaved with requests.
- Archiving a target raises revisions in its own transaction; `Maintenance` lets any raise come later or be lost, so its runs include those of the source.
- Target groups: their parent check and move are the agent groups' code over another table, so `GroupHierarchy` is written once.
- Concurrent group moves: the parent check takes no lock, so only sequential moves keep the hierarchy free of cycles.
- That an acknowledged configuration is running in the scheduler: after a failed acknowledgement the engine is not reloaded, so claims are about the stored active snapshot.
- Years beyond 9999 in stored times.
- Unicode case folding in the hash comparison of `Validate`: a parameter.
- Scheduler.Jitter: its hash of the monitor identity is a parameter, and in `SchedulerRuns` a new row may get any first due time.
- Within one process each configuration change brings a larger revision, as the stored active snapshot guarantees; taking up the same revision twice in one process is not modelled.
- The scheduler without a state store, probe execution itself and cancellation on shutdown.
- SchedulerSafety.RefusedOnlyDuringChange: a configuration change that a store error aborts after some rows were restored is no step of the model; after one a tick can fail with no change under way.
- SchedulerSafety.NoSlotRunsTwice: slots are told apart by monitor, configuration revision and time; a new revision starts a new grid.
- Floating-point rounding in the ICMP statistics and in the retry delay: real numbers.
- Numbers with fractions or exponents in configurations; integers at or beyond 2^53.
- Go's typed integer fields pass through the same rounding parameter as the untyped ones; below 2^53 this makes no difference.
- Messages of errors beyond the tokenizer's short ones, and the line content they quote.
- Tokenizer.Cursor.Tokenize: a tokenizer that never ends is an outcome, `NeverEnds`, reported at the offset where it stays.
- RevisionProtocol.Served: answers with the stored snapshot, where the control plane answers with content built anew that has the same hash.
- Which values the columns accept: a parameter, apart from addresses being required.
- The whitespace and indentation checks of the template validator beside the matcher, and the diff it prints.
- The dashboard's availability states and headlines: flat case tables.
