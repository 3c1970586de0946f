/**
 * What the host's operations do, as functions of its state and of what its collaborators answered. The class
 * in AuditHost.dfy is proved against these functions; the theorems about runs are stated over them.
 */
module Hosts {
  import opened Records
  import opened Ledgers
  import opened Ordering
  import opened Storage

  datatype Level = L1 | L2

  datatype Config = Config(level: Level, persistent: bool, countersigner: Option<KeyId>, logId: LogId)

  /**
   * One audit session. Per key, `decided` is the `signer_seq` values a decision was reached on and `received`
   * the highest received with a verifying signature. `terminal` holds the one outcome sealed per operation.
   */
  datatype Session = Session(
    decided: map<KeyId, set<int>>,
    received: map<KeyId, int>,
    accepted: set<Id>,
    terminal: map<Id, Event>)

  const FRESH_SESSION := Session(map[], map[], {}, map[])

  datatype Anomaly = Anomaly(id: Id, kind: Code)

  /** `chain` is every record committed, before a restart and since; `store` is what the repository holds. */
  datatype Host = Host(
    config: Config,
    chain: seq<Record>,
    store: seq<Record>,
    sessions: map<SessionId, Session>,
    issued: set<SessionId>,
    tailUncertain: bool,
    sealedAttempts: map<Id, Record>,
    sealedEvents: set<Event>,
    rejectedIds: set<Id>,
    anomalies: seq<Anomaly>,
    available: bool)

  /** What `loadTail` did: it told the tail the store has, or failed as a repository does, or threw otherwise. */
  datatype Read = Answered | ReadFailed | ReadThrew

  datatype Verdict = Verifies | Refuted(code: Code) | VerifierThrew

  /** What `append` did. A failure does not say whether the record landed. */
  datatype Write = Stored | FailedClean | FailedLanded | ThrewClean | ThrewLanded

  /** Everything one call hears from the outside. */
  datatype Env = Env(read: Read, verdict: Verdict, now: Time, signature: Option<nat>, write: Write)

  datatype Response =
    | Accept(position: int, recordHash: Hash, hostTs: Time, previousHash: Hash, triple: Triple)
    | Reject(code: Code)
    | Unavailable
    | Threw

  datatype Disposition = Sealed | Repeat | Refused | NotRecorded | OutcomeThrew

  function Initial(config: Config): Host {
    Host(config, [], [], map[], {}, false, map[], {}, {}, [], true)
  }

  function AcceptOf(r: Record): Response {
    Accept(r.position, r.recordHash, r.hostTs, r.previousHash, r.triple)
  }

  function Flag(h: Host, id: Id, kind: Code): Host {
    h.(anomalies := h.anomalies + [Anomaly(id, kind)])
  }

  function Remember(h: Host, r: Record): Host {
    h.(sealedEvents := h.sealedEvents + {r.event},
       sealedAttempts := if r.event.outcome.Attempted? then h.sealedAttempts[r.event.id := r] else h.sealedAttempts)
  }

  function WithSession(h: Host, id: SessionId, s: Session): Host {
    h.(sessions := h.sessions[id := s])
  }

  /** The open session of the event clears its operation. */
  function Clear(h: Host, e: Event): Host {
    if e.session in h.sessions then
      var s := h.sessions[e.session];
      WithSession(h, e.session, s.(accepted := s.accepted + {e.id}))
    else
      h
  }

  function Commit(h: Host, r: Record): (h': Host)
    ensures h'.sessions == h.sessions
  {
    Remember(h.(chain := h.chain + [r]), r)
  }

  // ---------------------------------------------------------------------------------------------------
  // A tail in doubt.

  datatype Settled = Known | InDoubt | SettleThrew

  predicate TailUnchanged(h: Host) {
    if h.store == [] then h.chain == []
    else
      var tail := h.store[|h.store| - 1];
      tail.position == |h.chain| - 1 && tail.recordHash == TailHash(h.chain)
  }

  predicate TailContinues(h: Host) {
    && h.store != []
    && var tail := h.store[|h.store| - 1];
       tail.position == |h.chain| && tail.previousHash == TailHash(h.chain)
  }

  /** Take over a record that landed. Only `accepted` is restored for its session. */
  function Adopt(h: Host, r: Record): Host {
    var committed := Commit(h, r);
    if r.event.outcome.Attempted? then Clear(committed, r.event) else committed
  }

  function SettleTail(h: Host, read: Read): (Host, Settled) {
    match read
    case ReadFailed => (h, InDoubt)
    case ReadThrew => (h, SettleThrew)
    case Answered =>
      if TailUnchanged(h) then (h.(tailUncertain := false), Known)
      else if TailContinues(h) then (Adopt(h, h.store[|h.store| - 1]).(tailUncertain := false), Known)
      else (h, InDoubt)
  }

  function ChainKnown(h: Host, read: Read): (Host, Settled) {
    if h.tailUncertain && h.config.persistent then SettleTail(h, read) else (h, Known)
  }

  // ---------------------------------------------------------------------------------------------------
  // The checks, in order.

  /** Structure, canonicalization and session; a code when the event is refused, flagged as it is. */
  function Admit(h: Host, e: Event, expected: Option<SessionId>, attempt: bool): (Host, Option<Code>) {
    if !Valid(e) || !e.canonicalizable || e.outcome.Attempted? != attempt then
      (Flag(h, e.id, SchemaInvalid), Some(SchemaInvalid))
    else if e.session !in h.sessions || (expected.Some? && e.session != expected.value) then
      (Flag(h, e.id, ReplayDetected), Some(ReplayDetected))
    else
      (h, None)
  }

  datatype Checked = Passed | Refuses(code: Code) | CheckThrew

  /** One past the highest value received for the event's key. */
  function Expected(s: Session, key: KeyId): int {
    if key in s.received then s.received[key] + 1 else 0
  }

  function Receive(h: Host, e: Event): Host
    requires e.signer.Some? && e.session in h.sessions
  {
    var s := h.sessions[e.session];
    var key, number := e.signer.value.key, e.signer.value.number;
    var flagged := if number > Expected(s, key) then Flag(h, e.id, SignerSeqGap) else h;
    if key !in s.received || number > s.received[key] then
      WithSession(flagged, e.session, s.(received := s.received[key := number]))
    else
      flagged
  }

  function VerifySignature(h: Host, e: Event, verdict: Verdict): (Host, Checked)
    requires e.session in h.sessions
  {
    if h.config.level.L1? then (h, Passed)
    else if e.signer.None? then (Flag(h, e.id, SignatureInvalid), Refuses(L2Unsigned))
    else
      match verdict
      case VerifierThrew => (h, CheckThrew)
      case Refuted(code) => (Flag(h, e.id, SignatureInvalid), Refuses(code))
      case Verifies => (Receive(h, e), Passed)
  }

  predicate Tracked(h: Host, e: Event) {
    h.config.level.L2? && e.signer.Some?
  }

  predicate Decided(s: Session, signer: Signer) {
    signer.key in s.decided && signer.number in s.decided[signer.key]
  }

  predicate Replayed(h: Host, e: Event)
    requires e.session in h.sessions
  {
    Tracked(h, e) && Decided(h.sessions[e.session], e.signer.value)
  }

  function WithDecision(s: Session, signer: Signer): Session {
    s.(decided := s.decided[signer.key :=
                              (if signer.key in s.decided then s.decided[signer.key] else {}) + {signer.number}])
  }

  function Decide(h: Host, e: Event): Host
    requires e.session in h.sessions
  {
    if Tracked(h, e) then WithSession(h, e.session, WithDecision(h.sessions[e.session], e.signer.value)) else h
  }

  // ---------------------------------------------------------------------------------------------------
  // Sealing.

  datatype Seal = SealedAs(record: Record) | NotSealed | SealThrew

  function Countersigned(h: Host, r: Record, signature: nat): Record
    requires h.config.countersigner.Some?
  {
    r.(triple := Full(signature, h.config.countersigner.value, h.config.logId))
  }

  function Persist(h: Host, r: Record, write: Write): (result: (Host, Seal))
    ensures result.0.sessions == h.sessions
  {
    if !h.config.persistent then (Commit(h, r), SealedAs(r))
    else if r.position != NextPosition(h.store) then (h.(tailUncertain := true), NotSealed)
    else
      match write
      case Stored => (Commit(h.(store := h.store + [r]), r), SealedAs(r))
      case FailedClean => (h.(tailUncertain := true), NotSealed)
      case FailedLanded => (h.(store := h.store + [r], tailUncertain := true), NotSealed)
      case ThrewClean => (h, SealThrew)
      case ThrewLanded => (h.(store := h.store + [r]), SealThrew)
  }

  /** The record an event would be sealed as now; none where the countersigner fails. */
  function Prepared(h: Host, e: Event, env: Env): Option<Record> {
    var plain := SealNext(h.chain, e, env.now);
    if h.config.countersigner.None? then Some(plain)
    else if env.signature.None? then None
    else Some(Countersigned(h, plain, env.signature.value))
  }

  function SealEvent(h: Host, e: Event, env: Env): (result: (Host, Seal))
    ensures result.0.sessions == h.sessions
  {
    var r := Prepared(h, e, env);
    if r.None? then (h, NotSealed) else Persist(h, r.value, env.write)
  }

  // ---------------------------------------------------------------------------------------------------
  // Attempts and outcomes.

  function RefuseId(h: Host, e: Event, kind: Code): Host
    requires e.session in h.sessions
  {
    Flag(Decide(h.(rejectedIds := h.rejectedIds + {e.id}), e), e.id, kind)
  }

  /** From the uniqueness check on: the signature has been verified. */
  function SealAttempt(h: Host, e: Event, env: Env): (Host, Response)
    requires e.session in h.sessions
  {
    if e.id in h.sealedAttempts then
      if h.sealedAttempts[e.id].event == e then (Clear(h, e), AcceptOf(h.sealedAttempts[e.id]))
      else (RefuseId(h, e, ReplayDetected), Reject(ReplayDetected))
    else if e.id in h.sessions[e.session].terminal || Replayed(h, e) then
      (RefuseId(h, e, ReplayDetected), Reject(ReplayDetected))
    else RecordAttempt(h, e, env)
  }

  /** A new attempt that may be sealed. */
  function RecordAttempt(h: Host, e: Event, env: Env): (Host, Response)
    requires e.session in h.sessions
  {
    if !h.available then (h, Unavailable)
    else
      var (h', seal) := SealEvent(h, e, env);
      match seal
      case SealThrew => (h', Threw)
      case NotSealed => (h', Unavailable)
      case SealedAs(r) => (Clear(Decide(h', e), e), AcceptOf(r))
  }

  function AdmittedAttempt(h: Host, e: Event, env: Env): (Host, Response)
    requires e.session in h.sessions
  {
    var (verified, checked) := VerifySignature(h, e, env.verdict);
    match checked
    case CheckThrew => (verified, Threw)
    case Refuses(code) => (verified.(rejectedIds := verified.rejectedIds + {e.id}), Reject(code))
    case Passed => SealAttempt(verified, e, env)
  }

  function DecideAttempt(h: Host, e: Event, expected: Option<SessionId>, env: Env): (Host, Response) {
    var (admitted, refused) := Admit(h, e, expected, true);
    if refused.Some? then (admitted, Reject(refused.value)) else AdmittedAttempt(admitted, e, env)
  }

  /** `late` is that the caller has already been answered when the attempt's turn comes. */
  function HandleAttempt(h: Host, e: Event, expected: Option<SessionId>, late: bool, env: Env): (Host, Response) {
    if late then (h, Unavailable) else
      var (settled, known) := ChainKnown(h, env.read);
      match known
      case SettleThrew => (settled, Threw)
      case InDoubt => (settled, Unavailable)
      case Known => DecideAttempt(settled, e, expected, env)
  }

  function Conclude(h: Host, e: Event): Host
    requires e.session in h.sessions
  {
    var s := h.sessions[e.session];
    WithSession(h, e.session, s.(terminal := s.terminal[e.id := e]))
  }

  function SealOutcome(h: Host, e: Event, env: Env): (Host, Disposition)
    requires e.session in h.sessions
  {
    var s := h.sessions[e.session];
    if e in h.sealedEvents || (e.id in s.terminal && s.terminal[e.id] == e) then (h, Repeat)
    else if e.id in s.terminal then (Flag(Decide(h, e), e.id, ReplayDetected), Refused)
    else if Replayed(h, e) then (Flag(h, e.id, ReplayDetected), Refused)
    else if e.id !in s.accepted && !e.outcome.Aborted? then (Flag(Decide(h, e), e.id, OrphanedOutcome), Refused)
    else RecordOutcome(h, e, env)
  }

  /** A new outcome that may be sealed: its operation's terminal record, or the record of a refusal. */
  function RecordOutcome(h: Host, e: Event, env: Env): (Host, Disposition)
    requires e.session in h.sessions
  {
    if !h.available then (h, NotRecorded)
    else
      var (h', seal) := SealEvent(h, e, env);
      match seal
      case SealThrew => (h', OutcomeThrew)
      case NotSealed => (h', NotRecorded)
      case SealedAs(r) => (Conclude(Decide(h', e), e), Sealed)
  }

  function AdmittedOutcome(h: Host, e: Event, env: Env): (Host, Disposition)
    requires e.session in h.sessions
  {
    var (verified, checked) := VerifySignature(h, e, env.verdict);
    match checked
    case CheckThrew => (verified, OutcomeThrew)
    case Refuses(_) => (verified, Refused)
    case Passed => SealOutcome(verified, e, env)
  }

  function DecideOutcome(h: Host, e: Event, expected: Option<SessionId>, env: Env): (Host, Disposition) {
    var (admitted, refused) := Admit(h, e, expected, false);
    if refused.Some? then (admitted, Refused) else AdmittedOutcome(admitted, e, env)
  }

  /** The id recorded for something that is not an event. */
  const UNKNOWN_ID: Id := 0

  /** `item` is absent when what arrived is not a JSON object. */
  function HandleOutcome(h: Host, item: Option<Event>, expected: Option<SessionId>, env: Env): (Host, Disposition) {
    if item.None? then (Flag(h, UNKNOWN_ID, SchemaInvalid), Refused) else
      var (settled, known) := ChainKnown(h, env.read);
      match known
      case SettleThrew => (settled, OutcomeThrew)
      case InDoubt => (settled, NotRecorded)
      case Known => DecideOutcome(settled, item.value, expected, env)
  }

  // ---------------------------------------------------------------------------------------------------
  // Sessions and restart.

  /** Issue a session; false when the id was issued before, whatever became of it. */
  function OpenSession(h: Host, id: SessionId): (Host, bool) {
    if id in h.issued then (h, false)
    else (h.(issued := h.issued + {id}, sessions := h.sessions[id := FRESH_SESSION]), true)
  }

  function FlagAll(h: Host, ids: seq<Id>, kind: Code): Host {
    h.(anomalies := h.anomalies + seq(|ids|, i requires 0 <= i < |ids| => Anomaly(ids[i], kind)))
  }

  function CloseSession(h: Host, id: SessionId): Host {
    if id !in h.sessions then h else
      var s := h.sessions[id];
      FlagAll(h.(sessions := h.sessions - {id}), Listed(s.accepted - s.terminal.Keys), UnresolvedAttempt)
  }

  /** One sealed record's part in a session rebuilt from the ledger. */
  function Absorb(s: Session, id: SessionId, e: Event): Session {
    if e.session != id then s else
      var numbered := if e.signer.None? then s else
        var key, number := e.signer.value.key, e.signer.value.number;
        var highest := if key in s.received && s.received[key] > number then s.received[key] else number;
        WithDecision(s, e.signer.value).(received := s.received[key := highest]);
      if e.outcome.Attempted? then numbered.(accepted := numbered.accepted + {e.id})
      else numbered.(terminal := numbered.terminal[e.id := e])
  }

  function Restored(id: SessionId, records: seq<Record>): Session {
    if records == [] then FRESH_SESSION
    else Absorb(Restored(id, records[..|records| - 1]), id, records[|records| - 1].event)
  }

  /** A session to restore as open, with the tracker kept for it outside the ledger. */
  datatype Reopened = Reopened(session: SessionId, decided: map<KeyId, set<int>>, received: map<KeyId, int>)

  function MergeDecided(a: map<KeyId, set<int>>, b: map<KeyId, set<int>>): map<KeyId, set<int>> {
    map k | k in a.Keys + b.Keys :: (if k in a then a[k] else {}) + (if k in b then b[k] else {})
  }

  function MergeReceived(a: map<KeyId, int>, b: map<KeyId, int>): map<KeyId, int> {
    map k | k in a.Keys + b.Keys ::
      if k in a && (k !in b || a[k] > b[k]) then a[k] else b[k]
  }

  function Reopen(entry: Reopened, records: seq<Record>): Session {
    var s := Restored(entry.session, records);
    s.(decided := MergeDecided(s.decided, entry.decided), received := MergeReceived(s.received, entry.received))
  }

  function ReopenAll(h: Host, open: seq<Reopened>, records: seq<Record>): Host {
    if open == [] then h else
      var before := ReopenAll(h, open[..|open| - 1], records);
      var entry := open[|open| - 1];
      before.(issued := before.issued + {entry.session},
              sessions := before.sessions[entry.session := Reopen(entry, records)])
  }

  function RememberAll(h: Host, records: seq<Record>): Host {
    if records == [] then h else
      var before := RememberAll(h, records[..|records| - 1]);
      var r := records[|records| - 1];
      var remembered := Remember(before, r);
      remembered.(issued := remembered.issued + {r.event.session})
  }

  datatype Operation = Operation(session: SessionId, id: Id)

  function OperationOf(e: Event): Operation {
    Operation(e.session, e.id)
  }

  /** The attempts outside `open` that no later terminal record resolved, in the order they were opened. */
  function Unresolved(records: seq<Record>, open: set<SessionId>): seq<Operation> {
    if records == [] then [] else
      var before := Unresolved(records[..|records| - 1], open);
      var e := records[|records| - 1].event;
      if e.session in open then before
      else if !e.outcome.Attempted? then Dropping(before, OperationOf(e))
      else if OperationOf(e) in before then before
      else before + [OperationOf(e)]
  }

  function IdsOf(ops: seq<Operation>): (ids: seq<Id>)
    ensures |ids| == |ops|
  {
    seq(|ops|, i requires 0 <= i < |ops| => ops[i].id)
  }

  function OpenIds(open: seq<Reopened>): set<SessionId> {
    set i | 0 <= i < |open| :: open[i].session
  }

  /** The host that continues a persisted chain. */
  function Resume(config: Config, store: seq<Record>, open: seq<Reopened>): Host {
    var loaded := RememberAll(Initial(config).(chain := store, store := store), store);
    var reopened := ReopenAll(loaded, open, store);
    FlagAll(reopened, IdsOf(Unresolved(store, OpenIds(open))), UnresolvedAttempt)
  }

  // ---------------------------------------------------------------------------------------------------
  // Runs.

  datatype Op =
    | Attempt(event: Event, expected: Option<SessionId>, late: bool, env: Env)
    | Outcome(item: Option<Event>, expected: Option<SessionId>, env: Env)
    | Open(session: SessionId)
    | Close(session: SessionId)
    | SetAvailable(available: bool)
    | Restart(open: seq<Reopened>)

  /** One call. A restart is possible only where there is a store to restart from. */
  function Step(h: Host, op: Op): Host {
    match op
    case Attempt(e, expected, late, env) => HandleAttempt(h, e, expected, late, env).0
    case Outcome(item, expected, env) => HandleOutcome(h, item, expected, env).0
    case Open(id) => OpenSession(h, id).0
    case Close(id) => CloseSession(h, id)
    case SetAvailable(available) => h.(available := available)
    case Restart(open) => if h.config.persistent then Resume(h.config, h.store, open) else h
  }

  function Run(h: Host, ops: seq<Op>): Host {
    if ops == [] then h else Step(Run(h, ops[..|ops| - 1]), ops[|ops| - 1])
  }
}
