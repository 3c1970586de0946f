/**
 * The host's audit subsystem for one partition, as an object. Every method is proved to take the state where
 * the function of the same name in module Hosts takes it.
 */
module AuditHosts {
  import opened Records
  import opened Ledgers
  import opened Ordering
  import opened Storage
  import opened Hosts

  /** A session's tracker as it is kept outside the host: per key, the decided numbers listed and the highest received. */
  datatype Tracker = Tracker(decided: map<KeyId, seq<int>>, received: map<KeyId, int>)

  ghost predicate Increases(numbers: seq<int>) {
    forall i, j :: 0 <= i < j < |numbers| ==> numbers[i] < numbers[j]
  }

  function Members(numbers: seq<int>): set<int> {
    set n | n in numbers
  }

  /** The tracker as it is given back. */
  function Kept(id: SessionId, tracker: Tracker): Reopened {
    Reopened(id, map k | k in tracker.decided :: Members(tracker.decided[k]), tracker.received)
  }

  class AuditHost {
    const partition: Partition
    const config: Config
    const ledger: Ledger
    const repository: InMemoryLedgerRepository?

    /** Set to false by the integrator when persistence is known to be down. */
    var available: bool
    var sessions: map<SessionId, Session>
    /** Every session id ever issued, open or closed. */
    var issued: set<SessionId>
    /** A persistence failure left it unknown whether the record landed. */
    var tailUncertain: bool
    var sealedAttempts: map<Id, Record>
    var sealedEvents: set<Event>
    var rejectedIds: set<Id>
    var anomalies: seq<Anomaly>

    ghost predicate Sound()
      reads this, ledger, if repository == null then {} else {repository}
    {
      && ledger.Valid()
      && (repository != null ==> repository.Valid())
      && config.persistent == (repository != null)
    }

    ghost function Stored(): seq<Record>
      reads this, if repository == null then {} else {repository}
    {
      if repository == null then [] else repository.Of(partition)
    }

    ghost function State(): Host
      reads this, ledger, if repository == null then {} else {repository}
    {
      Host(config, ledger.chain, Stored(), sessions, issued, tailUncertain, sealedAttempts, sealedEvents,
           rejectedIds, anomalies, available)
    }

    constructor (partition: Partition, config: Config, repository: InMemoryLedgerRepository?)
      requires config.persistent == (repository != null)
      requires repository != null ==> repository.Valid()
      ensures Sound() && fresh(ledger) && this.repository == repository
      ensures this.partition == partition && this.config == config
      ensures State() == Initial(config).(store := Stored())
    {
      this.partition, this.config, this.repository := partition, config, repository;
      ledger := new Ledger();
      available := true;
      sessions, issued, tailUncertain := map[], {}, false;
      sealedAttempts, sealedEvents, rejectedIds, anomalies := map[], {}, {}, [];
    }

    method FlagAnomaly(id: Id, kind: Code)
      requires Sound()
      modifies this`anomalies
      ensures Sound() && State() == Flag(old(State()), id, kind)
    {
      anomalies := anomalies + [Anomaly(id, kind)];
    }

    /** Note a sealed record so that a repeat of it is recognized. */
    method RememberRecord(record: Record)
      requires Sound()
      modifies this`sealedEvents, this`sealedAttempts
      ensures Sound() && State() == Remember(old(State()), record)
    {
      sealedEvents := sealedEvents + {record.event};
      if record.event.outcome.Attempted? {
        sealedAttempts := sealedAttempts[record.event.id := record];
      }
    }

    method CommitRecord(record: Record)
      requires Sound()
      modifies this`sealedEvents, this`sealedAttempts, ledger
      ensures Sound() && State() == Commit(old(State()), record)
    {
      ledger.Commit(record);
      RememberRecord(record);
    }

    /** Take over a record that landed; only what it accepted is restored for its session. */
    method AdoptRecord(record: Record)
      requires Sound()
      modifies this`sealedEvents, this`sealedAttempts, this`sessions, ledger
      ensures Sound() && State() == Adopt(old(State()), record)
    {
      CommitRecord(record);
      var event := record.event;
      if event.session in sessions && event.outcome.Attempted? {
        ClearOperation(event);
      }
    }

    /** Settle a tail a failed append left in doubt, before sealing on top of it. */
    method Settle(read: Read) returns (settled: Settled)
      requires Sound() && repository != null
      modifies this, ledger
      ensures Sound() && (State(), settled) == SettleTail(old(State()), read)
    {
      if read.ReadFailed? {
        return InDoubt;
      }
      if read.ReadThrew? {
        return SettleThrew;
      }
      var tail := repository.LoadTail(partition);
      var length, digest := ledger.count, ledger.tailHash;
      var same :=
        if tail.None? then length == 0
        else tail.value.position == length - 1 && tail.value.recordHash == digest;
      assert same == TailUnchanged(State());
      if !same {
        assert TailContinues(State()) <==>
               tail.Some? && tail.value.position == length && tail.value.previousHash == digest;
        if tail.None? || tail.value.position != length || tail.value.previousHash != digest {
          return InDoubt;
        }
        AdoptRecord(tail.value);
      }
      tailUncertain := false;
      settled := Known;
    }

    method KnowChain(read: Read) returns (settled: Settled)
      requires Sound()
      modifies this, ledger
      ensures Sound() && (State(), settled) == ChainKnown(old(State()), read)
    {
      if !tailUncertain || repository == null {
        settled := Known;
      } else {
        settled := Settle(read);
      }
    }

    method AdmitEvent(event: Event, expected: Option<SessionId>, attempt: bool) returns (refused: Option<Code>)
      requires Sound()
      modifies this`anomalies
      ensures Sound() && (State(), refused) == Admit(old(State()), event, expected, attempt)
    {
      if !Valid(event) {
        FlagAnomaly(event.id, SchemaInvalid);
        return Some(SchemaInvalid);
      }
      if !event.canonicalizable {
        FlagAnomaly(event.id, SchemaInvalid);
        return Some(SchemaInvalid);
      }
      if event.outcome.Attempted? != attempt {
        FlagAnomaly(event.id, SchemaInvalid);
        return Some(SchemaInvalid);
      }
      if event.session !in sessions || (expected.Some? && event.session != expected.value) {
        FlagAnomaly(event.id, ReplayDetected);
        return Some(ReplayDetected);
      }
      refused := None;
    }

    method VerifyEvent(event: Event, verdict: Verdict) returns (checked: Checked)
      requires Sound() && event.session in sessions
      modifies this`anomalies, this`sessions
      ensures Sound() && (State(), checked) == VerifySignature(old(State()), event, verdict)
    {
      if config.level != L2 {
        return Passed;
      }
      if event.signer.None? {
        FlagAnomaly(event.id, SignatureInvalid);
        return Refuses(L2Unsigned);
      }
      match verdict {
        case VerifierThrew => return CheckThrew;
        case Refuted(code) =>
          FlagAnomaly(event.id, SignatureInvalid);
          return Refuses(code);
        case Verifies =>
      }
      var s := sessions[event.session];
      var key, number := event.signer.value.key, event.signer.value.number;
      var expected := if key !in s.received then 0 else s.received[key] + 1;
      if number > expected {
        FlagAnomaly(event.id, SignerSeqGap);
      }
      if key !in s.received || number > s.received[key] {
        sessions := sessions[event.session := s.(received := s.received[key := number])];
      }
      checked := Passed;
    }

    /** True when the host already decided the event's `signer_seq`; it is flagged then. */
    method CheckReplay(event: Event) returns (replay: bool)
      requires Sound() && event.session in sessions
      modifies this`anomalies
      ensures Sound() && replay == Replayed(old(State()), event)
      ensures State() == if replay then Flag(old(State()), event.id, ReplayDetected) else old(State())
    {
      replay := false;
      if config.level == L2 && event.signer.Some? {
        var s := sessions[event.session];
        var key := event.signer.value.key;
        if key in s.decided && event.signer.value.number in s.decided[key] {
          FlagAnomaly(event.id, ReplayDetected);
          replay := true;
        }
      }
    }

    method DecideEvent(event: Event)
      requires Sound() && event.session in sessions
      modifies this`sessions
      ensures Sound() && State() == Decide(old(State()), event) && sessions.Keys == old(sessions.Keys)
    {
      if config.level == L2 && event.signer.Some? {
        var s := sessions[event.session];
        var key := event.signer.value.key;
        var decided := if key in s.decided then s.decided[key] else {};
        sessions := sessions[event.session := s.(decided := s.decided[key := decided + {event.signer.value.number}])];
      }
    }

    /** Seal the event, persist it where there is a repository, then commit. */
    method SealRecord(event: Event, env: Env) returns (seal: Seal)
      requires Sound() && event.canonicalizable
      modifies this`tailUncertain, this`sealedEvents, this`sealedAttempts, ledger, repository
      ensures Sound() && (State(), seal) == SealEvent(old(State()), event, env)
    {
      var sealed := ledger.Seal(event, env.now);
      if config.countersigner.Some? {
        if env.signature.None? {
          return NotSealed;
        }
        sealed := sealed.(triple := Full(env.signature.value, config.countersigner.value, config.logId));
      }
      seal := PersistRecord(sealed, env.write);
    }

    /** Append, then commit. What a failing append throws, and whether the record is there all the same, varies. */
    method PersistRecord(sealed: Record, write: Write) returns (seal: Seal)
      requires Sound()
      modifies this`tailUncertain, this`sealedEvents, this`sealedAttempts, ledger, repository
      ensures Sound() && (State(), seal) == Persist(old(State()), sealed, write)
    {
      if repository != null {
        var tail := repository.LoadTail(partition);
        var refused := sealed.position != if tail.None? then 0 else tail.value.position + 1;
        assert refused == (sealed.position != NextPosition(Stored()));
        if !refused && !write.FailedClean? && !write.ThrewClean? {
          var _ := repository.Append(partition, sealed);
        }
        if refused || write.FailedClean? || write.FailedLanded? {
          tailUncertain := true;
          return NotSealed;
        }
        if !write.Stored? {
          return SealThrew;
        }
      }
      CommitRecord(sealed);
      seal := SealedAs(sealed);
    }

    method ClearOperation(event: Event)
      requires Sound() && event.session in sessions
      modifies this`sessions
      ensures Sound() && State() == Clear(old(State()), event)
    {
      var s := sessions[event.session];
      sessions := sessions[event.session := s.(accepted := s.accepted + {event.id})];
    }

    method ConcludeOperation(event: Event)
      requires Sound() && event.session in sessions
      modifies this`sessions
      ensures Sound() && State() == Conclude(old(State()), event)
    {
      var s := sessions[event.session];
      sessions := sessions[event.session := s.(terminal := s.terminal[event.id := event])];
    }

    method RefuseAttempt(event: Event)
      requires Sound() && event.session in sessions
      modifies this`sessions, this`rejectedIds, this`anomalies
      ensures Sound() && State() == RefuseId(old(State()), event, ReplayDetected)
    {
      rejectedIds := rejectedIds + {event.id};
      DecideEvent(event);
      FlagAnomaly(event.id, ReplayDetected);
    }

    method TakeAttempt(event: Event, expected: Option<SessionId>, late: bool, env: Env) returns (response: Response)
      requires Sound()
      modifies this, ledger, repository
      ensures Sound() && (State(), response) == HandleAttempt(old(State()), event, expected, late, env)
    {
      if late {
        return Unavailable;
      }
      var settled := KnowChain(env.read);
      if settled.SettleThrew? {
        return Threw;
      }
      if settled.InDoubt? {
        return Unavailable;
      }
      response := AttemptKnown(event, expected, env);
    }

    /** Admission and the signature, on a chain that is known. */
    method AttemptKnown(event: Event, expected: Option<SessionId>, env: Env) returns (response: Response)
      requires Sound()
      modifies this, ledger, repository
      ensures Sound() && (State(), response) == DecideAttempt(old(State()), event, expected, env)
    {
      var refused := AdmitEvent(event, expected, true);
      if refused.Some? {
        return Reject(refused.value);
      }
      response := AttemptAdmitted(event, env);
    }

    method AttemptAdmitted(event: Event, env: Env) returns (response: Response)
      requires Sound() && event.session in sessions && event.canonicalizable
      modifies this, ledger, repository
      ensures Sound() && (State(), response) == AdmittedAttempt(old(State()), event, env)
    {
      var checked := VerifyEvent(event, env.verdict);
      if checked.CheckThrew? {
        return Threw;
      }
      if checked.Refuses? {
        rejectedIds := rejectedIds + {event.id};
        return Reject(checked.code);
      }
      response := AttemptVerified(event, env);
    }

    /** Uniqueness, replay, and the seal. */
    method AttemptVerified(event: Event, env: Env) returns (response: Response)
      requires Sound() && event.session in sessions && event.canonicalizable
      modifies this, ledger, repository
      ensures Sound() && (State(), response) == SealAttempt(old(State()), event, env)
    {
      if event.id in sealedAttempts {
        var sealed := sealedAttempts[event.id];
        if sealed.event == event {
          ClearOperation(event);
          return AcceptOf(sealed);
        }
        RefuseAttempt(event);
        return Reject(ReplayDetected);
      }
      if event.id in sessions[event.session].terminal {
        RefuseAttempt(event);
        return Reject(ReplayDetected);
      }
      var replay := CheckReplay(event);
      if replay {
        rejectedIds := rejectedIds + {event.id};
        DecideEvent(event);
        return Reject(ReplayDetected);
      }
      response := RecordNewAttempt(event, env);
    }

    method RecordNewAttempt(event: Event, env: Env) returns (response: Response)
      requires Sound() && event.session in sessions && event.canonicalizable
      modifies this, ledger, repository
      ensures Sound() && (State(), response) == RecordAttempt(old(State()), event, env)
    {
      if !available {
        return Unavailable;
      }
      var seal := SealRecord(event, env);
      if seal.SealThrew? {
        return Threw;
      }
      if seal.NotSealed? {
        return Unavailable;
      }
      DecideEvent(event);
      ClearOperation(event);
      response := AcceptOf(seal.record);
    }

    method TakeOutcome(item: Option<Event>, expected: Option<SessionId>, env: Env) returns (disposition: Disposition)
      requires Sound()
      modifies this, ledger, repository
      ensures Sound() && (State(), disposition) == HandleOutcome(old(State()), item, expected, env)
    {
      if item.None? {
        FlagAnomaly(UNKNOWN_ID, SchemaInvalid);
        return Refused;
      }
      var settled := KnowChain(env.read);
      if settled.SettleThrew? {
        return OutcomeThrew;
      }
      if settled.InDoubt? {
        return NotRecorded;
      }
      disposition := OutcomeKnown(item.value, expected, env);
    }

    method OutcomeKnown(event: Event, expected: Option<SessionId>, env: Env) returns (disposition: Disposition)
      requires Sound()
      modifies this, ledger, repository
      ensures Sound() && (State(), disposition) == DecideOutcome(old(State()), event, expected, env)
    {
      var refused := AdmitEvent(event, expected, false);
      if refused.Some? {
        return Refused;
      }
      disposition := OutcomeAdmitted(event, env);
    }

    method OutcomeAdmitted(event: Event, env: Env) returns (disposition: Disposition)
      requires Sound() && event.session in sessions && event.canonicalizable
      modifies this, ledger, repository
      ensures Sound() && (State(), disposition) == AdmittedOutcome(old(State()), event, env)
    {
      var checked := VerifyEvent(event, env.verdict);
      if checked.CheckThrew? {
        return OutcomeThrew;
      }
      if checked.Refuses? {
        return Refused;
      }
      disposition := OutcomeVerified(event, env);
    }

    /** Uniqueness per operation, replay, correlation, and the seal. */
    method OutcomeVerified(event: Event, env: Env) returns (disposition: Disposition)
      requires Sound() && event.session in sessions && event.canonicalizable
      modifies this, ledger, repository
      ensures Sound() && (State(), disposition) == SealOutcome(old(State()), event, env)
    {
      var s := sessions[event.session];
      if event in sealedEvents || (event.id in s.terminal && s.terminal[event.id] == event) {
        return Repeat;
      }
      if event.id in s.terminal {
        DecideEvent(event);
        FlagAnomaly(event.id, ReplayDetected);
        return Refused;
      }
      var replay := CheckReplay(event);
      if replay {
        return Refused;
      }
      if event.id !in s.accepted && !event.outcome.Aborted? {
        DecideEvent(event);
        FlagAnomaly(event.id, OrphanedOutcome);
        return Refused;
      }
      disposition := RecordNewOutcome(event, env);
    }

    method RecordNewOutcome(event: Event, env: Env) returns (disposition: Disposition)
      requires Sound() && event.session in sessions && event.canonicalizable
      modifies this, ledger, repository
      ensures Sound() && (State(), disposition) == RecordOutcome(old(State()), event, env)
    {
      if !available {
        return NotRecorded;
      }
      var seal := SealRecord(event, env);
      if seal.SealThrew? {
        return OutcomeThrew;
      }
      if seal.NotSealed? {
        return NotRecorded;
      }
      DecideEvent(event);
      ConcludeOperation(event);
      disposition := Sealed;
    }

    /** Issue a fresh session; false, and nothing changed, for an id that was ever issued. */
    method Open(id: SessionId) returns (issuedNow: bool)
      requires Sound()
      modifies this`issued, this`sessions
      ensures Sound() && (State(), issuedNow) == OpenSession(old(State()), id)
    {
      if id in issued {
        return false;
      }
      issued := issued + {id};
      sessions := sessions[id := FRESH_SESSION];
      issuedNow := true;
    }

    /** End a session: what it accepted and never resolved is flagged, in ascending order. */
    method Close(id: SessionId)
      requires Sound()
      modifies this`sessions, this`anomalies
      ensures Sound() && State() == CloseSession(old(State()), id)
    {
      if id !in sessions {
        return;
      }
      var s := sessions[id];
      sessions := sessions - {id};
      FlagIds(Listed(s.accepted - s.terminal.Keys));
    }

    /** The tracker of an open session, for a host whose sessions outlive it to keep and give back on restart. */
    method SignerTracker(id: SessionId) returns (tracker: Option<Tracker>)
      ensures tracker.Some? <==> id in sessions
      ensures tracker.Some? ==> forall k :: k in tracker.value.decided ==> Increases(tracker.value.decided[k])
      ensures tracker.Some? ==> Kept(id, tracker.value) == Reopened(id, sessions[id].decided, sessions[id].received)
    {
      if id !in sessions {
        return None;
      }
      var s := sessions[id];
      var decided := map k | k in s.decided :: ListedInts(s.decided[k]);
      assert forall k :: k in s.decided ==> Members(decided[k]) == s.decided[k];
      tracker := Some(Tracker(decided, s.received));
    }

    method FlagIds(ids: seq<Id>)
      requires Sound()
      modifies this`anomalies
      ensures Sound() && State() == FlagAll(old(State()), ids, UnresolvedAttempt)
    {
      var i := 0;
      while i < |ids|
        invariant 0 <= i <= |ids| && Sound()
        invariant anomalies == old(anomalies) + seq(i, k requires 0 <= k < i => Anomaly(ids[k], UnresolvedAttempt))
      {
        anomalies := anomalies + [Anomaly(ids[i], UnresolvedAttempt)];
        i := i + 1;
      }
    }

    /** Note the stored records, and the sessions they belong to. */
    method LoadRecords(records: seq<Record>)
      requires Sound()
      modifies this`sealedEvents, this`sealedAttempts, this`issued
      ensures Sound() && State() == RememberAll(old(State()), records)
    {
      var i := 0;
      while i < |records|
        invariant 0 <= i <= |records| && Sound()
        invariant State() == RememberAll(old(State()), records[..i])
      {
        assert records[..i + 1][..i] == records[..i];
        RememberRecord(records[i]);
        issued := issued + {records[i].event.session};
        i := i + 1;
      }
      assert records[..i] == records;
    }

    method ReopenSessions(open: seq<Reopened>, records: seq<Record>)
      requires Sound()
      modifies this`issued, this`sessions
      ensures Sound() && State() == ReopenAll(old(State()), open, records)
    {
      var i := 0;
      while i < |open|
        invariant 0 <= i <= |open| && Sound()
        invariant State() == ReopenAll(old(State()), open[..i], records)
      {
        assert open[..i + 1][..i] == open[..i];
        ReopenOne(open[i], records);
        i := i + 1;
      }
      assert open[..i] == open;
    }

    method ReopenOne(entry: Reopened, records: seq<Record>)
      requires Sound()
      modifies this`issued, this`sessions
      ensures Sound()
      ensures State() == old(State()).(issued := old(issued) + {entry.session},
                                       sessions := old(sessions)[entry.session := Reopen(entry, records)])
    {
      issued := issued + {entry.session};
      var s := RestoredSession(entry.session, records);
      s := WithTracker(s, entry);
      sessions := sessions[entry.session := s];
    }

    /** Build a host that continues a partition's persisted chain. */
    static method Restarted(partition: Partition, config: Config, repository: InMemoryLedgerRepository,
                            open: seq<Reopened>) returns (host: AuditHost)
      requires config.persistent && repository.Valid()
      ensures host.Sound() && fresh(host) && fresh(host.ledger)
      ensures host.partition == partition && host.repository == repository
      ensures host.State() == Resume(config, repository.Of(partition), open)
    {
      host := new AuditHost(partition, config, repository);
      var records := repository.ReadAll(partition);
      assert records != [] ==> records[|records| - 1].position == |records| - 1;
      host.ledger.ResumeFrom(if records == [] then None else Some(records[|records| - 1]), records);
      host.LoadRecords(records);
      host.ReopenSessions(open, records);
      var pending := OpenAttempts(records, OpenIds(open));
      host.FlagIds(IdsOf(pending));
    }
  }

  /** A session's state rebuilt from the records sealed in it. */
  method RestoredSession(id: SessionId, records: seq<Record>) returns (s: Session)
    ensures s == Restored(id, records)
  {
    s := FRESH_SESSION;
    var i := 0;
    while i < |records|
      invariant 0 <= i <= |records|
      invariant s == Restored(id, records[..i])
    {
      assert records[..i + 1][..i] == records[..i];
      var event := records[i].event;
      if event.session == id {
        if event.signer.Some? {
          var key, number := event.signer.value.key, event.signer.value.number;
          var decided := if key in s.decided then s.decided[key] else {};
          var highest := if key in s.received && s.received[key] > number then s.received[key] else number;
          s := s.(decided := s.decided[key := decided + {number}], received := s.received[key := highest]);
        }
        if event.outcome.Attempted? {
          s := s.(accepted := s.accepted + {event.id});
        } else {
          s := s.(terminal := s.terminal[event.id := event]);
        }
      }
      i := i + 1;
    }
    assert records[..i] == records;
  }

  /** Add the tracker kept outside the ledger: decisions that sealed nothing are only there. */
  method WithTracker(s: Session, entry: Reopened) returns (merged: Session)
    ensures merged == s.(decided := MergeDecided(s.decided, entry.decided),
                         received := MergeReceived(s.received, entry.received))
  {
    var decided := AddDecided(s.decided, entry.decided);
    var received := AddReceived(s.received, entry.received);
    merged := s.(decided := decided, received := received);
  }

  method AddDecided(a: map<KeyId, set<int>>, b: map<KeyId, set<int>>) returns (merged: map<KeyId, set<int>>)
    ensures merged == MergeDecided(a, b)
  {
    var keys := b.Keys;
    merged := a;
    while keys != {}
      invariant keys <= b.Keys
      invariant merged.Keys == a.Keys + (b.Keys - keys)
      invariant forall k :: k in merged ==> merged[k] == if k in keys then a[k] else MergeDecided(a, b)[k]
      decreases keys
    {
      var key :| key in keys;
      merged := merged[key := (if key in merged then merged[key] else {}) + b[key]];
      keys := keys - {key};
    }
  }

  method AddReceived(a: map<KeyId, int>, b: map<KeyId, int>) returns (merged: map<KeyId, int>)
    ensures merged == MergeReceived(a, b)
  {
    var keys := b.Keys;
    merged := a;
    while keys != {}
      invariant keys <= b.Keys
      invariant merged.Keys == a.Keys + (b.Keys - keys)
      invariant forall k :: k in merged ==> merged[k] == if k in keys then a[k] else MergeReceived(a, b)[k]
      decreases keys
    {
      var key :| key in keys;
      merged := merged[key := if key in merged && merged[key] > b[key] then merged[key] else b[key]];
      keys := keys - {key};
    }
  }

  /** The persisted attempts left without a terminal outcome, outside the sessions still open. */
  method OpenAttempts(records: seq<Record>, open: set<SessionId>) returns (pending: seq<Operation>)
    ensures pending == Unresolved(records, open)
  {
    pending := [];
    var i := 0;
    while i < |records|
      invariant 0 <= i <= |records|
      invariant pending == Unresolved(records[..i], open)
    {
      assert records[..i + 1][..i] == records[..i];
      var event := records[i].event;
      if event.session !in open {
        var op := OperationOf(event);
        if !event.outcome.Attempted? {
          pending := Dropping(pending, op);
        } else if op !in pending {
          pending := pending + [op];
        }
      }
      i := i + 1;
    }
    assert records[..i] == records;
  }
}
