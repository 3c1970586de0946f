/**
 * A restart, as the host's peers see it. A host resumed from the store with its open sessions named, and their
 * trackers given back, answers as the host that was never restarted; one resumed without them flags exactly what
 * closing those sessions would have.
 */
module Restarts {
  import opened Records
  import opened Ledgers
  import opened Ordering
  import opened Hosts
  import opened Chains
  import opened HostInvariants
  import opened HostTidiness
  import opened Persistence
  import opened Trackers
  import Sections

  // ---------------------------------------------------------------------------------------------------
  // What no answer depends on: the ids issued, the rejections noted, and the anomalies recorded so far.

  datatype Past = Past(issued: set<SessionId>, rejectedIds: set<Id>, anomalies: seq<Anomaly>)

  function Under(h: Host, p: Past): Host {
    h.(issued := p.issued, rejectedIds := p.rejectedIds + h.rejectedIds, anomalies := p.anomalies + h.anomalies)
  }

  function Bare(h: Host): Host {
    h.(issued := {}, rejectedIds := {}, anomalies := [])
  }

  lemma BareUnderPast(h: Host)
    ensures h == Under(Bare(h), Past(h.issued, h.rejectedIds, h.anomalies))
  {
    assert h.rejectedIds + {} == h.rejectedIds;
    assert h.anomalies + [] == h.anomalies;
  }

  lemma FlagUnder(h: Host, p: Past, id: Id, kind: Code)
    ensures Flag(Under(h, p), id, kind) == Under(Flag(h, id, kind), p)
  {
    assert p.anomalies + (h.anomalies + [Anomaly(id, kind)]) == (p.anomalies + h.anomalies) + [Anomaly(id, kind)];
  }

  lemma NoteUnder(h: Host, p: Past, id: Id)
    ensures var g := Under(h, p);
            g.(rejectedIds := g.rejectedIds + {id}) == Under(h.(rejectedIds := h.rejectedIds + {id}), p)
  {
    assert p.rejectedIds + (h.rejectedIds + {id}) == (p.rejectedIds + h.rejectedIds) + {id};
  }

  lemma RefuseUnder(h: Host, p: Past, e: Event)
    requires e.session in h.sessions
    ensures RefuseId(Under(h, p), e, ReplayDetected) == Under(RefuseId(h, e, ReplayDetected), p)
  {
    NoteUnder(h, p, e.id);
    FlagUnder(Decide(h.(rejectedIds := h.rejectedIds + {e.id}), e), p, e.id, ReplayDetected);
  }

  lemma AdoptUnder(h: Host, p: Past, r: Record)
    ensures Adopt(Under(h, p), r) == Under(Adopt(h, r), p)
  {
  }

  lemma SettleUnder(h: Host, p: Past, read: Read)
    ensures ChainKnown(Under(h, p), read) == (Under(ChainKnown(h, read).0, p), ChainKnown(h, read).1)
  {
    if h.config.persistent && h.tailUncertain && h.store != [] {
      AdoptUnder(h, p, h.store[|h.store| - 1]);
    }
  }

  lemma AdmitUnder(h: Host, p: Past, e: Event, expected: Option<SessionId>, attempt: bool)
    ensures Admit(Under(h, p), e, expected, attempt) ==
            (Under(Admit(h, e, expected, attempt).0, p), Admit(h, e, expected, attempt).1)
  {
    FlagUnder(h, p, e.id, SchemaInvalid);
    FlagUnder(h, p, e.id, ReplayDetected);
  }

  lemma ReceiveUnder(h: Host, p: Past, e: Event)
    requires e.signer.Some? && e.session in h.sessions
    ensures Receive(Under(h, p), e) == Under(Receive(h, e), p)
  {
    FlagUnder(h, p, e.id, SignerSeqGap);
  }

  lemma VerifyUnder(h: Host, p: Past, e: Event, verdict: Verdict)
    requires e.session in h.sessions
    ensures VerifySignature(Under(h, p), e, verdict) ==
            (Under(VerifySignature(h, e, verdict).0, p), VerifySignature(h, e, verdict).1)
  {
    FlagUnder(h, p, e.id, SignatureInvalid);
    if e.signer.Some? {
      ReceiveUnder(h, p, e);
    }
  }

  lemma PersistUnder(h: Host, p: Past, r: Record, write: Write)
    ensures Persist(Under(h, p), r, write) == (Under(Persist(h, r, write).0, p), Persist(h, r, write).1)
  {
  }

  lemma SealUnder(h: Host, p: Past, e: Event, env: Env)
    ensures SealEvent(Under(h, p), e, env) == (Under(SealEvent(h, e, env).0, p), SealEvent(h, e, env).1)
  {
    if Prepared(h, e, env).Some? {
      PersistUnder(h, p, Prepared(h, e, env).value, env.write);
    }
  }

  lemma RecordAttemptUnder(h: Host, p: Past, e: Event, env: Env)
    requires e.session in h.sessions
    ensures RecordAttempt(Under(h, p), e, env) == (Under(RecordAttempt(h, e, env).0, p), RecordAttempt(h, e, env).1)
  {
    SealUnder(h, p, e, env);
  }

  lemma SealAttemptUnder(h: Host, p: Past, e: Event, env: Env)
    requires e.session in h.sessions
    ensures SealAttempt(Under(h, p), e, env) == (Under(SealAttempt(h, e, env).0, p), SealAttempt(h, e, env).1)
  {
    RefuseUnder(h, p, e);
    RecordAttemptUnder(h, p, e, env);
  }

  lemma AdmittedAttemptUnder(h: Host, p: Past, e: Event, env: Env)
    requires e.session in h.sessions
    ensures AdmittedAttempt(Under(h, p), e, env) == (Under(AdmittedAttempt(h, e, env).0, p), AdmittedAttempt(h, e, env).1)
  {
    VerifyUnder(h, p, e, env.verdict);
    var verified := VerifySignature(h, e, env.verdict).0;
    SealAttemptUnder(verified, p, e, env);
    NoteUnder(verified, p, e.id);
  }

  lemma DecideAttemptUnder(h: Host, p: Past, e: Event, expected: Option<SessionId>, env: Env)
    ensures DecideAttempt(Under(h, p), e, expected, env) ==
            (Under(DecideAttempt(h, e, expected, env).0, p), DecideAttempt(h, e, expected, env).1)
  {
    AdmitUnder(h, p, e, expected, true);
    if Admit(h, e, expected, true).1.None? {
      AdmittedAttemptUnder(h, p, e, env);
    }
  }

  lemma AttemptUnder(h: Host, p: Past, e: Event, expected: Option<SessionId>, late: bool, env: Env)
    ensures HandleAttempt(Under(h, p), e, expected, late, env) ==
            (Under(HandleAttempt(h, e, expected, late, env).0, p), HandleAttempt(h, e, expected, late, env).1)
  {
    SettleUnder(h, p, env.read);
    DecideAttemptUnder(ChainKnown(h, env.read).0, p, e, expected, env);
  }

  lemma RecordOutcomeUnder(h: Host, p: Past, e: Event, env: Env)
    requires e.session in h.sessions
    ensures RecordOutcome(Under(h, p), e, env) == (Under(RecordOutcome(h, e, env).0, p), RecordOutcome(h, e, env).1)
  {
    SealUnder(h, p, e, env);
  }

  lemma SealOutcomeUnder(h: Host, p: Past, e: Event, env: Env)
    requires e.session in h.sessions
    ensures SealOutcome(Under(h, p), e, env) == (Under(SealOutcome(h, e, env).0, p), SealOutcome(h, e, env).1)
  {
    FlagUnder(h, p, e.id, ReplayDetected);
    FlagUnder(Decide(h, e), p, e.id, ReplayDetected);
    FlagUnder(Decide(h, e), p, e.id, OrphanedOutcome);
    RecordOutcomeUnder(h, p, e, env);
  }

  lemma AdmittedOutcomeUnder(h: Host, p: Past, e: Event, env: Env)
    requires e.session in h.sessions
    ensures AdmittedOutcome(Under(h, p), e, env) == (Under(AdmittedOutcome(h, e, env).0, p), AdmittedOutcome(h, e, env).1)
  {
    VerifyUnder(h, p, e, env.verdict);
    SealOutcomeUnder(VerifySignature(h, e, env.verdict).0, p, e, env);
  }

  lemma DecideOutcomeUnder(h: Host, p: Past, e: Event, expected: Option<SessionId>, env: Env)
    ensures DecideOutcome(Under(h, p), e, expected, env) ==
            (Under(DecideOutcome(h, e, expected, env).0, p), DecideOutcome(h, e, expected, env).1)
  {
    AdmitUnder(h, p, e, expected, false);
    if Admit(h, e, expected, false).1.None? {
      AdmittedOutcomeUnder(h, p, e, env);
    }
  }

  lemma OutcomeUnder(h: Host, p: Past, item: Option<Event>, expected: Option<SessionId>, env: Env)
    ensures HandleOutcome(Under(h, p), item, expected, env) ==
            (Under(HandleOutcome(h, item, expected, env).0, p), HandleOutcome(h, item, expected, env).1)
  {
    if item.Some? {
      SettleUnder(h, p, env.read);
      DecideOutcomeUnder(ChainKnown(h, env.read).0, p, item.value, expected, env);
    } else {
      FlagUnder(h, p, UNKNOWN_ID, SchemaInvalid);
    }
  }

  lemma CloseUnder(h: Host, p: Past, id: SessionId)
    ensures CloseSession(Under(h, p), id) == Under(CloseSession(h, id), p)
  {
    if id in h.sessions {
      var s := h.sessions[id];
      var ids := Listed(s.accepted - s.terminal.Keys);
      var flags := seq(|ids|, i requires 0 <= i < |ids| => Anomaly(ids[i], UnresolvedAttempt));
      assert p.anomalies + (h.anomalies + flags) == (p.anomalies + h.anomalies) + flags;
    }
  }

  datatype Answer = ToAttempt(response: Response) | ToOutcome(disposition: Disposition) | Silent

  function AnswerTo(h: Host, op: Op): Answer {
    match op
    case Attempt(e, expected, late, env) => ToAttempt(HandleAttempt(h, e, expected, late, env).1)
    case Outcome(item, expected, env) => ToOutcome(HandleOutcome(h, item, expected, env).1)
    case _ => Silent
  }

  /** A call on the sessions there are: an attempt, an outcome, a close, or the integrator's switch. */
  predicate OnOpenSessions(op: Op) {
    !op.Open? && !op.Restart?
  }

  lemma StepUnder(h: Host, p: Past, op: Op)
    requires OnOpenSessions(op)
    ensures Step(Under(h, p), op) == Under(Step(h, op), p) && AnswerTo(Under(h, p), op) == AnswerTo(h, op)
  {
    match op
    case Attempt(e, expected, late, env) => AttemptUnder(h, p, e, expected, late, env);
    case Outcome(item, expected, env) => OutcomeUnder(h, p, item, expected, env);
    case Close(id) => CloseUnder(h, p, id);
    case SetAvailable(available) =>
  }

  /** Two hosts that differ only in their past run and answer alike, and record the same anomalies from there. */
  lemma {:induction false} PastIsInvisible(h: Host, p: Past, ops: seq<Op>)
    requires forall i :: 0 <= i < |ops| ==> OnOpenSessions(ops[i])
    ensures Run(Under(h, p), ops) == Under(Run(h, ops), p)
  {
    if ops != [] {
      var n := |ops| - 1;
      PastIsInvisible(h, p, ops[..n]);
      StepUnder(Run(h, ops[..n]), p, ops[n]);
    }
  }

  // ---------------------------------------------------------------------------------------------------
  // What the store gives back.

  ghost predicate NumberIn(records: seq<Record>, id: SessionId, key: KeyId, number: int) {
    exists r :: r in records && r.event.session == id && r.event.signer == Some(Signer(key, number))
  }

  lemma NumberInExtend(records: seq<Record>, r: Record, id: SessionId, key: KeyId, number: int)
    ensures NumberIn(records + [r], id, key, number) <==>
              NumberIn(records, id, key, number) || (r.event.session == id && r.event.signer == Some(Signer(key, number)))
  {
    if NumberIn(records, id, key, number) {
      var x :| x in records && x.event.session == id && x.event.signer == Some(Signer(key, number));
      assert x in records + [r];
    }
    assert r in records + [r];
  }

  /** A tracker that holds nothing but what is sealed. */
  ghost predicate OnlySealed(s: Session, id: SessionId, records: seq<Record>) {
    && (forall k :: k in s.decided ==> exists n :: n in s.decided[k])
    && (forall k, n :: k in s.decided && n in s.decided[k] ==> NumberIn(records, id, k, n))
    && (forall k :: k in s.received ==> NumberIn(records, id, k, s.received[k]))
  }

  lemma {:induction false} RestoredOnlySealed(id: SessionId, records: seq<Record>)
    ensures OnlySealed(Restored(id, records), id, records)
  {
    if records != [] {
      var n := |records| - 1;
      RestoredOnlySealed(id, records[..n]);
      AbsorbOnlySealed(Restored(id, records[..n]), id, records[..n], records[n]);
      assert records == records[..n] + [records[n]];
    }
  }

  lemma AbsorbOnlySealed(s: Session, id: SessionId, records: seq<Record>, r: Record)
    requires OnlySealed(s, id, records)
    ensures OnlySealed(Absorb(s, id, r.event), id, records + [r])
  {
    var s' := Absorb(s, id, r.event);
    forall k, n | k in s'.decided && n in s'.decided[k]
      ensures NumberIn(records + [r], id, k, n)
    {
      NumberInExtend(records, r, id, k, n);
    }
    forall k | k in s'.received
      ensures NumberIn(records + [r], id, k, s'.received[k])
    {
      NumberInExtend(records, r, id, k, s'.received[k]);
    }
  }

  /** Merging the store's tracker into the one kept gives the one kept: it held all that and more. */
  lemma MergesAway(s: Session, restored: Session, id: SessionId, records: seq<Record>)
    requires KnowsNumbers(s, id, records) && KnowsReceived(s, id, records) && OnlySealed(restored, id, records)
    ensures MergeDecided(restored.decided, s.decided) == s.decided
    ensures MergeReceived(restored.received, s.received) == s.received
  {
    forall k | k in restored.decided
      ensures k in s.decided && forall n :: n in restored.decided[k] ==> n in s.decided[k]
    {
      NumbersAreKnown(s, id, records, k, restored.decided[k]);
    }
    assert restored.decided.Keys + s.decided.Keys == s.decided.Keys;
    forall k | k in s.decided
      ensures MergeDecided(restored.decided, s.decided)[k] == s.decided[k]
    {
      assert (if k in restored.decided then restored.decided[k] else {}) + s.decided[k] == s.decided[k];
    }
    forall k | k in restored.received
      ensures k in s.received && restored.received[k] <= s.received[k]
    {
      SealedIsKnown(s, id, records, k, restored.received[k]);
    }
  }

  lemma NumbersAreKnown(s: Session, id: SessionId, records: seq<Record>, key: KeyId, numbers: set<int>)
    requires KnowsNumbers(s, id, records) && exists n :: n in numbers
    requires forall n :: n in numbers ==> NumberIn(records, id, key, n)
    ensures key in s.decided && forall n :: n in numbers ==> n in s.decided[key]
  {
    forall n | n in numbers
      ensures Decided(s, Signer(key, n))
    {
      SealedIsKnown(s, id, records, key, n);
    }
  }

  lemma SealedIsKnown(s: Session, id: SessionId, records: seq<Record>, key: KeyId, number: int)
    requires NumberIn(records, id, key, number)
    ensures KnowsNumbers(s, id, records) ==> Decided(s, Signer(key, number))
    ensures KnowsReceived(s, id, records) ==> ReceivedUpTo(s, Signer(key, number))
  {
  }

  /** Two sessions that know the same records, and no more, agree. */
  lemma SameKnowledge(a: Session, b: Session, id: SessionId, records: seq<Record>)
    requires Cleared(a, id, records) && Cleared(b, id, records)
    requires KnowsAttempts(a, id, records) && KnowsAttempts(b, id, records)
    requires KnowsTerminals(a, id, records) && KnowsTerminals(b, id, records)
    ensures a.accepted == b.accepted && a.terminal == b.terminal
  {
    forall x | x in a.terminal
      ensures x in b.terminal && a.terminal[x] == b.terminal[x]
    {
      var r :| r in records && r.event == a.terminal[x] && r.event.session == id && !r.event.outcome.Attempted?
               && r.event.id == x;
    }
    forall x | x in b.terminal
      ensures x in a.terminal
    {
      var r :| r in records && r.event == b.terminal[x] && r.event.session == id && !r.event.outcome.Attempted?
               && r.event.id == x;
    }
  }

  /** A session named with its own tracker is rebuilt as it was. */
  lemma ReopenedAsItWas(s: Session, entry: Reopened, records: seq<Record>)
    requires Tidy(records, false)
    requires Cleared(s, entry.session, records) && Knows(s, entry.session, records, true)
    requires KnowsReceived(s, entry.session, records)
    requires entry.decided == s.decided && entry.received == s.received
    ensures Reopen(entry, records) == s
  {
    var restored := Restored(entry.session, records);
    RestoredKnows(entry.session, records);
    RestoredOnlySealed(entry.session, records);
    MergesAway(s, restored, entry.session, records);
    forall x | x in restored.accepted
      ensures AttemptIn(records, entry.session, x)
    {
      RestoredClears(entry.session, records, x);
    }
    SameKnowledge(s, restored, entry.session, records);
  }

  /** The trackers given back are the ones the host had, one for every open session. */
  ghost predicate GivesBack(h: Host, open: seq<Reopened>) {
    && OpenIds(open) == h.sessions.Keys
    && (forall i :: 0 <= i < |open| ==>
          var entry := open[i];
          entry.session in h.sessions &&
          entry.decided == h.sessions[entry.session].decided && entry.received == h.sessions[entry.session].received)
  }

  lemma {:induction false} ReopensAsTheyWere(h: Host, loaded: Host, open: seq<Reopened>)
    requires Tidied(h) && Numbering(h) && Received(h)
    requires forall i :: 0 <= i < |open| ==>
      var entry := open[i];
      entry.session in h.sessions &&
      entry.decided == h.sessions[entry.session].decided && entry.received == h.sessions[entry.session].received
    requires loaded.sessions == map[]
    ensures var g := ReopenAll(loaded, open, h.chain);
            && g.sessions.Keys == OpenIds(open)
            && (forall id :: id in g.sessions ==> id in h.sessions && g.sessions[id] == h.sessions[id])
  {
    if open != [] {
      var n := |open| - 1;
      ReopensAsTheyWere(h, loaded, open[..n]);
      OpenIdsNext(open);
      var entry := open[n];
      ChainIsTidy(h);
      assert Tidy(h.chain, false);
      assert Knows(h.sessions[entry.session], entry.session, h.chain, true);
      ReopenedAsItWas(h.sessions[entry.session], entry, h.chain);
    }
  }

  /** The indices of a chain are determined by it. */
  lemma IndicesAreUnique(records: seq<Record>, a: map<Id, Record>, b: map<Id, Record>, e: set<Event>, f: set<Event>)
    requires AttemptsIndexed(records, a) && AttemptsIndexed(records, b)
    requires EventsIndexed(records, e) && EventsIndexed(records, f)
    ensures a == b && e == f
  {
  }

  /** A host resumed from its own store, trackers given back, is the host it was but for its past. */
  lemma ResumedIsBare(h: Host, open: seq<Reopened>)
    requires Tidied(h) && Received(h) && Numbering(h) && h.config.persistent && h.store == h.chain && !h.tailUncertain && h.available
    requires GivesBack(h, open)
    ensures Bare(Resume(h.config, h.store, open)) == Bare(h)
  {
    StoreIsSane(h);
    ResumeHolds(h.config, h.store, open);
    ResumedConfig(h.config, h.store, open);
    ResumedSwitches(h.config, h.store, open);
    SessionsComeBack(h, open);
    var g := Resume(h.config, h.store, open);
    IndicesAreUnique(h.chain, h.sealedAttempts, g.sealedAttempts, h.sealedEvents, g.sealedEvents);
  }

  lemma SessionsComeBack(h: Host, open: seq<Reopened>)
    requires Tidied(h) && Received(h) && Numbering(h) && h.config.persistent && h.store == h.chain && GivesBack(h, open)
    ensures Resume(h.config, h.store, open).sessions == h.sessions
  {
    StoreIsSane(h);
    LoadedHasNoSessions(h.config, h.store);
    ReopensAsTheyWere(h, Loaded(h.config, h.store), open);
    ResumedSessions(h.config, h.store, open);
  }

  lemma ResumedSwitches(config: Config, store: seq<Record>, open: seq<Reopened>)
    requires config.persistent && Sane(store)
    ensures Resume(config, store, open).available && !Resume(config, store, open).tailUncertain
  {
    RememberAllIndexes(Initial(config).(chain := store, store := store), store);
    LoadedHolds(config, store);
    ReopenAllKeeps(Loaded(config, store), open);
  }

  /** The host once a call has settled its tail, as its next call would, where the store answers. */
  ghost function SettledHost(h: Host): Host {
    ChainKnown(h, Answered).0
  }

  /**
   * A restart is invisible. Take any run of a Level 2 host, its tail settled. Resume a host from its store with
   * every open session named and its tracker given back. Then the resumed host answers every later attempt and
   * outcome exactly as the host that was not restarted, seals the same chain, and records the same anomalies from
   * there on.
   */
  lemma RestartIsInvisible(config: Config, before: seq<Op>, open: seq<Reopened>, after: seq<Op>, k: nat)
    requires config.level.L2? && config.persistent && NeverAdopts(config, before) && NeverUnreceived(config, before)
    requires !AdoptsNow(Run(Initial(config), before), Answered) && !AdoptsUnreceived(Run(Initial(config), before), Answered)
    requires var h := SettledHost(Run(Initial(config), before)); h.store == h.chain && h.available && GivesBack(h, open)
    requires forall i :: 0 <= i < |after| ==> OnOpenSessions(after[i])
    requires k <= |after|
    ensures var h := SettledHost(Run(Initial(config), before));
            var g := Resume(config, h.store, open);
            && (k < |after| ==> AnswerTo(Run(g, after[..k]), after[k]) == AnswerTo(Run(h, after[..k]), after[k]))
            && Run(g, after[..k]).chain == Run(h, after[..k]).chain
            && Run(g, after[..k]).store == Run(h, after[..k]).store
            && h.anomalies <= Run(h, after[..k]).anomalies
            && Run(g, after[..k]).anomalies == g.anomalies + Run(h, after[..k]).anomalies[|h.anomalies|..]
  {
    var h := SettledHost(Run(Initial(config), before));
    var g := Resume(config, h.store, open);
    RunTidied(config, before);
    RunKeeps(config, before);
    RunKeepsConfig(config, before);
    SettledIsTidied(Run(Initial(config), before));
    RunReceives(config, before);
    SettleReceives(Run(Initial(config), before), Answered);
    ResumedIsBare(h, open);
    AnswersAlike(h, g, after, k);
  }

  /** A call that settles the tail before it decides, and is told the tail. */
  predicate Settles(op: Op) {
    Sections.Carries(op) && (op.Attempt? ==> !op.late) && Sections.EnvOf(op).read.Answered?
  }

  lemma SettledStays(h: Host)
    requires Invariant(h)
    ensures ChainKnown(h, Answered).1.Known? && ChainKnown(SettledHost(h), Answered) == (SettledHost(h), Known)
  {
    if h.config.persistent && h.tailUncertain {
      SettleKeeps(h, Answered);
    }
  }

  /** A call that settles the tail does and answers what it would have on the tail settled before. */
  lemma SettlingIsFirst(h: Host, op: Op)
    requires Invariant(h) && Settles(op)
    ensures Step(h, op) == Step(SettledHost(h), op) && AnswerTo(h, op) == AnswerTo(SettledHost(h), op)
  {
    SettledStays(h);
  }

  lemma {:induction false} SameFromThere(h: Host, g: Host, ops: seq<Op>, k: nat)
    requires 0 < k <= |ops| && Step(h, ops[0]) == Step(g, ops[0])
    ensures Run(h, ops[..k]) == Run(g, ops[..k])
  {
    assert ops[..k][..k - 1] == ops[..k - 1];
    if k > 1 {
      SameFromThere(h, g, ops, k - 1);
    }
  }

  /**
   * Nor does it show where the host that is not restarted had its tail in doubt: as long as its next call settles the
   * tail, that call and all later ones are answered alike.
   */
  lemma RestartInDoubtIsInvisible(config: Config, before: seq<Op>, open: seq<Reopened>, after: seq<Op>, k: nat)
    requires config.level.L2? && config.persistent && NeverAdopts(config, before) && NeverUnreceived(config, before)
    requires !AdoptsNow(Run(Initial(config), before), Answered) && !AdoptsUnreceived(Run(Initial(config), before), Answered)
    requires var h := Run(Initial(config), before);
             (h.tailUncertain || h.store == h.chain) && h.available && GivesBack(h, open)
    requires forall i :: 0 <= i < |after| ==> OnOpenSessions(after[i])
    requires k <= |after| && after != [] && Settles(after[0])
    ensures var h := Run(Initial(config), before);
            var g := Resume(config, h.store, open);
            && (k < |after| ==> AnswerTo(Run(g, after[..k]), after[k]) == AnswerTo(Run(h, after[..k]), after[k]))
            && (0 < k ==> Run(g, after[..k]).chain == Run(h, after[..k]).chain)
            && Run(g, after[..k]).store == Run(h, after[..k]).store
            && h.anomalies <= Run(h, after[..k]).anomalies
            && Run(g, after[..k]).anomalies == g.anomalies + Run(h, after[..k]).anomalies[|h.anomalies|..]
  {
    var h := Run(Initial(config), before);
    RunKeeps(config, before);
    RunKeepsConfig(config, before);
    SettlingGivesBack(h, open);
    RestartIsInvisible(config, before, open, after, k);
    SettlingIsFirst(h, after[0]);
    if k > 0 {
      SameFromThere(h, SettledHost(h), after, k);
    }
  }

  lemma SettlingGivesBack(h: Host, open: seq<Reopened>)
    requires Invariant(h) && h.config.persistent && GivesBack(h, open) && (h.tailUncertain || h.store == h.chain)
    ensures var g := SettledHost(h);
            && GivesBack(g, open) && g.store == g.chain && g.store == h.store && g.available == h.available
            && g.anomalies == h.anomalies
  {
    SettleShape(h, Answered);
    if h.tailUncertain {
      SettleKeeps(h, Answered);
      SettledTrackers(h);
    }
  }

  ghost predicate SameTrackers(h: Host, g: Host) {
    && g.sessions.Keys == h.sessions.Keys && g.available == h.available && g.anomalies == h.anomalies
    && forall id :: id in h.sessions ==>
         g.sessions[id].decided == h.sessions[id].decided && g.sessions[id].received == h.sessions[id].received
  }

  /** Adopting restores only what was accepted: the trackers stay. */
  lemma AdoptingKeepsTrackers(h: Host, r: Record)
    ensures SameTrackers(h, Adopt(h, r))
  {
    var committed := Commit(h, r);
    assert SameTrackers(h, committed);
    if r.event.outcome.Attempted? {
      assert SameTrackers(committed, Clear(committed, r.event));
    }
  }

  lemma SettledTrackers(h: Host)
    ensures SameTrackers(h, SettledHost(h))
  {
    if h.store != [] {
      AdoptingKeepsTrackers(h, h.store[|h.store| - 1]);
    }
  }

  lemma SettledIsTidied(h: Host)
    requires Tidied(h) && h.config.persistent && !AdoptsNow(h, Answered)
    ensures Tidied(SettledHost(h)) && SettledHost(h).config == h.config && !SettledHost(h).tailUncertain
  {
    ChainKnownTidied(h, Answered);
    SettleShape(h, Answered);
    TailTells(h);
  }

  lemma AnswersAlike(h: Host, g: Host, after: seq<Op>, k: nat)
    requires Bare(g) == Bare(h) && k <= |after|
    requires forall i :: 0 <= i < |after| ==> OnOpenSessions(after[i])
    ensures k < |after| ==> AnswerTo(Run(g, after[..k]), after[k]) == AnswerTo(Run(h, after[..k]), after[k])
    ensures Run(g, after[..k]).chain == Run(h, after[..k]).chain && Run(g, after[..k]).store == Run(h, after[..k]).store
    ensures h.anomalies <= Run(h, after[..k]).anomalies
    ensures Run(g, after[..k]).anomalies == g.anomalies + Run(h, after[..k]).anomalies[|h.anomalies|..]
  {
    var b := Bare(h);
    var pastH, pastG := Past(h.issued, h.rejectedIds, h.anomalies), Past(g.issued, g.rejectedIds, g.anomalies);
    BareUnderPast(h);
    BareUnderPast(g);
    PastIsInvisible(b, pastH, after[..k]);
    PastIsInvisible(b, pastG, after[..k]);
    if k < |after| {
      StepUnder(Run(b, after[..k]), pastH, after[k]);
      StepUnder(Run(b, after[..k]), pastG, after[k]);
    }
  }

  // ---------------------------------------------------------------------------------------------------
  // A restart that names no session ends them all.

  ghost predicate TerminalIn(records: seq<Record>, op: Operation) {
    exists r :: r in records && !r.event.outcome.Attempted? && OperationOf(r.event) == op
  }

  /**
   * The fold over the records finds, once each, exactly the sealed attempts of the ended sessions that have no
   * sealed terminal record.
   */
  lemma {:induction false} UnresolvedAre(records: seq<Record>, open: set<SessionId>)
    requires Tidy(records, false)
    ensures NoRepeats(Unresolved(records, open))
    ensures forall op :: op in Unresolved(records, open) <==>
              op.session !in open && AttemptIn(records, op.session, op.id) && !TerminalIn(records, op)
  {
    if records != [] {
      var n := |records| - 1;
      var front, r := records[..n], records[n];
      assert records == front + [r];
      TidyFront(front, r, false);
      UnresolvedAre(front, open);
      DroppingDrops(Unresolved(front, open), OperationOf(r.event));
      forall op
        ensures op in Unresolved(records, open) <==>
                  op.session !in open && AttemptIn(records, op.session, op.id) && !TerminalIn(records, op)
      {
        UnresolvedNext(front, r, open, op);
      }
    }
  }

  lemma TerminalInExtend(records: seq<Record>, r: Record, op: Operation)
    ensures TerminalIn(records + [r], op) <==>
              TerminalIn(records, op) || (!r.event.outcome.Attempted? && OperationOf(r.event) == op)
  {
    if TerminalIn(records, op) {
      var x :| x in records && !x.event.outcome.Attempted? && OperationOf(x.event) == op;
      assert x in records + [r];
    }
    assert r in records + [r];
  }

  lemma UnresolvedNext(front: seq<Record>, r: Record, open: set<SessionId>, op: Operation)
    requires FitsAfter(front, r.event, false) && NoRepeats(Unresolved(front, open))
    requires op in Unresolved(front, open) <==>
               op.session !in open && AttemptIn(front, op.session, op.id) && !TerminalIn(front, op)
    ensures op in Unresolved(front + [r], open) <==>
              op.session !in open && AttemptIn(front + [r], op.session, op.id) && !TerminalIn(front + [r], op)
  {
    assert (front + [r])[..|front|] == front;
    AttemptInExtend(front, r, op.session, op.id);
    TerminalInExtend(front, r, op);
    DroppingDrops(Unresolved(front, open), OperationOf(r.event));
    if OperationOf(r.event) == op && r.event.outcome.Attempted? {
      forall x | x in front
        ensures OperationOf(x.event) != op
      {
        assert Compatible(x.event, r.event, false);
      }
    }
  }

  /** What closing one open session flags, told from the records. */
  lemma ClosingFlags(h: Host, id: SessionId)
    requires Tidied(h) && id in h.sessions
    ensures var s := h.sessions[id];
            && CloseSession(h, id).anomalies ==
                 FlagAll(h, Listed(s.accepted - s.terminal.Keys), UnresolvedAttempt).anomalies
            && (forall x :: x in Listed(s.accepted - s.terminal.Keys) <==>
                  AttemptIn(h.chain, id, x) && !TerminalIn(h.chain, Operation(id, x)))
  {
    var s := h.sessions[id];
    assert Knows(s, id, h.chain, Numbering(h)) && Cleared(s, id, h.chain);
    forall x
      ensures x in s.terminal <==> TerminalIn(h.chain, Operation(id, x))
    {
    }
  }

  /**
   * Resumed with no session named, a host flags one `unresolved-attempt` for each sealed attempt without a sealed
   * terminal record, and those of a session that was open are the ones closing it would have flagged.
   */
  lemma ResumeFlagsWhatClosingWould(config: Config, ops: seq<Op>, id: SessionId)
    requires config.persistent && NeverAdopts(config, ops)
    requires var h := Run(Initial(config), ops); h.store == h.chain && id in h.sessions
    ensures var h := Run(Initial(config), ops);
            var pending := Unresolved(h.store, {});
            && Resume(config, h.store, []).anomalies == FlagAll(Initial(config), IdsOf(pending), UnresolvedAttempt).anomalies
            && NoRepeats(pending)
            && (forall op :: op in pending <==>
                  AttemptIn(h.store, op.session, op.id) && !TerminalIn(h.store, op))
            && (forall x :: Operation(id, x) in pending <==>
                  x in Listed(h.sessions[id].accepted - h.sessions[id].terminal.Keys))
  {
    var h := Run(Initial(config), ops);
    RunTidied(config, ops);
    RunKeepsConfig(config, ops);
    ChainIsTidy(h);
    assert Tidy(h.store, false);
    UnresolvedAre(h.store, {});
    ClosingFlags(h, id);
    StoreIsSane(h);
    RememberAllIndexes(Initial(config).(chain := h.store, store := h.store), h.store);
    assert OpenIds([]) == {};
  }

  /** The records of one session. */
  ghost predicate SameUnder(a: seq<Record>, b: seq<Record>, id: SessionId) {
    forall r: Record :: r.event.session == id ==> (r in a <==> r in b)
  }

  lemma SettlingOpensNone(h: Host, read: Read)
    ensures ChainKnown(h, read).0.sessions.Keys == h.sessions.Keys
  {
  }

  /** A call for a session that is not open seals nothing in it. */
  lemma OutsiderSealsNothing(h: Host, op: Op, id: SessionId)
    requires Invariant(h) && id !in h.sessions
    ensures SameUnder(Whole(h), Whole(Step(h, op)), id)
  {
    StepAdds(h, op);
    if Sections.Carries(op) && Sections.EventOf(op).session == id {
      OutsiderIsRefused(h, op);
    } else {
      AddedElsewhere(h, Step(h, op), SentBy(op), id);
    }
  }

  lemma AddedElsewhere(h: Host, h': Host, sent: set<Event>, id: SessionId)
    requires Adds(h, h', sent) && forall e :: e in sent ==> e.session != id
    ensures SameUnder(Whole(h), Whole(h'), id)
  {
    if Whole(h') != Whole(h) {
      var r :| Made(h.config, r) && r.event in sent && Whole(h') == Whole(h) + [r];
    }
  }

  lemma OutsiderIsRefused(h: Host, op: Op)
    requires Invariant(h) && Sections.Carries(op) && Sections.EventOf(op).session !in h.sessions
    ensures Whole(Step(h, op)) == Whole(h)
  {
    var (settled, known) := ChainKnown(h, Sections.EnvOf(op).read);
    SettleShape(h, Sections.EnvOf(op).read);
    SettlingOpensNone(h, Sections.EnvOf(op).read);
    assert Sections.EventOf(op).session !in settled.sessions.Keys;
    AdmitsNoOutsider(settled, op);
    if op.Attempt? {
      assert Step(h, op) == if op.late then h else if known.Known? then DecideAttempt(settled, op.event, op.expected, op.env).0 else settled;
    } else {
      assert Step(h, op) == if known.Known? then DecideOutcome(settled, op.item.value, op.expected, op.env).0 else settled;
    }
  }

  lemma AdmitsNoOutsider(h: Host, op: Op)
    requires Sections.Carries(op) && Sections.EventOf(op).session !in h.sessions
    ensures op.Attempt? ==> SameLedger(h, DecideAttempt(h, op.event, op.expected, op.env).0)
    ensures op.Outcome? ==> SameLedger(h, DecideOutcome(h, op.item.value, op.expected, op.env).0)
  {
  }

  ghost predicate ClosedAt(config: Config, ops: seq<Op>, k: nat, id: SessionId)
    requires k <= |ops|
  {
    id !in Run(Initial(config), ops[..k]).sessions
  }

  lemma {:induction false} SameAlong(wholes: seq<seq<Record>>, n: nat, m: nat, id: SessionId)
    requires n <= m < |wholes| && forall k :: n <= k < m ==> SameUnder(wholes[k], wholes[k + 1], id)
    ensures SameUnder(wholes[n], wholes[m], id)
    decreases m - n
  {
    if n < m {
      SameAlong(wholes, n, m - 1, id);
      assert SameUnder(wholes[m - 1], wholes[m - 1 + 1], id);
    }
  }

  /** Between two moments at which a session is not open, nor at any in between, nothing is sealed in it. */
  lemma ClosedSealsNothing(config: Config, ops: seq<Op>, n: nat, m: nat, id: SessionId)
    requires n <= m <= |ops| && forall k :: n <= k <= m ==> ClosedAt(config, ops, k, id)
    ensures SameUnder(Whole(Run(Initial(config), ops[..n])), Whole(Run(Initial(config), ops[..m])), id)
  {
    var wholes := seq(|ops| + 1, k requires 0 <= k <= |ops| => Whole(Run(Initial(config), ops[..k])));
    forall k | n <= k < m
      ensures SameUnder(wholes[k], wholes[k + 1], id)
    {
      ClosedStep(config, ops, k, id);
    }
    SameAlong(wholes, n, m, id);
  }

  lemma ClosedStep(config: Config, ops: seq<Op>, n: nat, id: SessionId)
    requires n < |ops| && ClosedAt(config, ops, n, id)
    ensures SameUnder(Whole(Run(Initial(config), ops[..n])), Whole(Run(Initial(config), ops[..n + 1])), id)
  {
    RunKeeps(config, ops[..n]);
    RunMoves(config, ops, n);
    OutsiderSealsNothing(Run(Initial(config), ops[..n]), ops[n], id);
  }

  lemma PendingIsUnder(a: seq<Record>, b: seq<Record>, id: SessionId, x: Id)
    requires SameUnder(a, b, id)
    ensures AttemptIn(a, id, x) <==> AttemptIn(b, id, x)
    ensures TerminalIn(a, Operation(id, x)) <==> TerminalIn(b, Operation(id, x))
  {
  }

  /** No record waits in the store that the session's close could not see and that bears on what it flags. */
  ghost predicate NothingWaits(h: Host, id: SessionId) {
    h.store != h.chain && h.store != [] && h.store[|h.store| - 1].event.session == id ==>
      var e := h.store[|h.store| - 1].event;
      !e.outcome.Attempted? && !AttemptIn(h.chain, id, e.id)
  }

  ghost predicate UnresolvedIn(records: seq<Record>, id: SessionId, x: Id) {
    AttemptIn(records, id, x) && !TerminalIn(records, Operation(id, x))
  }

  /** What one record more does to the operations of a session that are sealed and concluded. */
  ghost predicate OneMoreOf(chain: seq<Record>, store: seq<Record>, r: Record, id: SessionId, x: Id) {
    var own := OperationOf(r.event) == Operation(id, x);
    && (AttemptIn(store, id, x) <==> AttemptIn(chain, id, x) || (r.event.outcome.Attempted? && own))
    && (TerminalIn(store, Operation(id, x)) <==> TerminalIn(chain, Operation(id, x)) || (!r.event.outcome.Attempted? && own))
  }

  /** The chain and the store show the same operations unresolved unless a record that bears on one waits. */
  lemma WaitingTells(h: Host, id: SessionId)
    requires Tidied(h) && h.config.persistent
    ensures (forall x :: UnresolvedIn(h.store, id, x) <==> UnresolvedIn(h.chain, id, x)) <==> NothingWaits(h, id)
  {
    if h.store != h.chain {
      var r :| h.store == h.chain + [r] && Continues(h.chain, r);
      assert h.store[|h.store| - 1] == r;
      TidyFront(h.chain, r, Numbering(h));
      forall x
        ensures OneMoreOf(h.chain, h.store, r, id, x)
      {
        AttemptInExtend(h.chain, r, id, x);
        TerminalInExtend(h.chain, r, Operation(id, x));
      }
      WaitingDiffers(h.chain, h.store, r, id);
    }
  }

  lemma WaitingDiffers(chain: seq<Record>, store: seq<Record>, r: Record, id: SessionId)
    requires FitsAfter(chain, r.event, false)
    requires forall x :: OneMoreOf(chain, store, r, id, x)
    ensures (forall x :: UnresolvedIn(store, id, x) <==> UnresolvedIn(chain, id, x)) <==>
              (r.event.session == id ==> !r.event.outcome.Attempted? && !AttemptIn(chain, id, r.event.id))
  {
    var x := r.event.id;
    assert OneMoreOf(chain, store, r, id, x);
    if r.event.session == id {
      assert !TerminalIn(chain, Operation(id, x));
      if r.event.outcome.Attempted? {
        assert UnresolvedIn(store, id, x) && !UnresolvedIn(chain, id, x);
      } else if AttemptIn(chain, id, x) {
        assert !UnresolvedIn(store, id, x) && UnresolvedIn(chain, id, x);
      }
    }
    forall y | r.event.session == id ==> y != x || (!r.event.outcome.Attempted? && !AttemptIn(chain, id, x))
      ensures UnresolvedIn(store, id, y) <==> UnresolvedIn(chain, id, y)
    {
      assert OneMoreOf(chain, store, r, id, y);
    }
  }

  /**
   * A session closed earlier in the run, and not open since: what a resume that names no session flags of it is what
   * its close flagged, if and only if no record bearing on it was waiting in the store at that close.
   */
  lemma ResumeFlagsWhatClosingDid(config: Config, ops: seq<Op>, n: nat, id: SessionId)
    requires config.persistent && NeverAdopts(config, ops)
    requires n < |ops| && ops[n] == Close(id) && id in Run(Initial(config), ops[..n]).sessions
    requires forall k :: n < k <= |ops| ==> ClosedAt(config, ops, k, id)
    ensures var before := Run(Initial(config), ops[..n]);
            var s := before.sessions[id];
            && Step(before, ops[n]).anomalies == FlagAll(before, Listed(s.accepted - s.terminal.Keys), UnresolvedAttempt).anomalies
            && ((forall x :: Operation(id, x) in Unresolved(Run(Initial(config), ops).store, {}) <==>
                              x in Listed(s.accepted - s.terminal.Keys)) <==> NothingWaits(before, id))
  {
    var before, h := Run(Initial(config), ops[..n]), Run(Initial(config), ops);
    TidiedAt(config, ops, n);
    TidiedAt(config, ops, |ops|);
    assert ops[..|ops|] == ops;
    ClosedSealsNothing(config, ops, n + 1, |ops|, id);
    RunMoves(config, ops, n);
    ClosedUnder(before, h, id);
  }

  lemma TidiedAt(config: Config, ops: seq<Op>, n: nat)
    requires n <= |ops| && NeverAdopts(config, ops)
    ensures Tidied(Run(Initial(config), ops[..n])) && Run(Initial(config), ops[..n]).config == config
  {
    assert forall i :: 0 <= i < n ==> ops[..n][..i] == ops[..i];
    RunTidied(config, ops[..n]);
    RunKeepsConfig(config, ops[..n]);
  }

  /** From the host that closes the session to one with the same records of it. */
  lemma ClosedUnder(before: Host, h: Host, id: SessionId)
    requires Tidied(before) && Tidied(h) && before.config == h.config && h.config.persistent && id in before.sessions
    requires SameUnder(before.store, h.store, id)
    ensures var s := before.sessions[id];
            && CloseSession(before, id).anomalies ==
                 FlagAll(before, Listed(s.accepted - s.terminal.Keys), UnresolvedAttempt).anomalies
            && ((forall x :: Operation(id, x) in Unresolved(h.store, {}) <==>
                              x in Listed(s.accepted - s.terminal.Keys)) <==> NothingWaits(before, id))
  {
    ClosingFlags(before, id);
    WaitingTells(before, id);
    PendingIn(h, id);
    forall x
      ensures Operation(id, x) in Unresolved(h.store, {}) <==> UnresolvedIn(before.store, id, x)
    {
      PendingIsUnder(before.store, h.store, id, x);
    }
  }

  lemma PendingIn(h: Host, id: SessionId)
    requires Tidied(h) && h.config.persistent
    ensures forall x :: Operation(id, x) in Unresolved(h.store, {}) <==> UnresolvedIn(h.store, id, x)
  {
    assert Tidy(h.store, false);
    UnresolvedAre(h.store, {});
  }

  // ---------------------------------------------------------------------------------------------------
  // What a restart does not remember.

  ghost predicate SealedUnder(records: seq<Record>, id: SessionId) {
    exists r :: r in records && r.event.session == id
  }

  lemma {:induction false} RememberedIssued(h: Host, records: seq<Record>, id: SessionId)
    ensures id in RememberAll(h, records).issued <==> id in h.issued || SealedUnder(records, id)
  {
    if records != [] {
      var n := |records| - 1;
      RememberedIssued(h, records[..n], id);
      assert records == records[..n] + [records[n]];
    }
  }

  lemma {:induction false} ReopenedIssued(h: Host, open: seq<Reopened>, records: seq<Record>, id: SessionId)
    ensures id in ReopenAll(h, open, records).issued <==> id in h.issued || id in OpenIds(open)
  {
    if open != [] {
      ReopenedIssued(h, open[..|open| - 1], records, id);
      OpenIdsNext(open);
    }
  }

  /**
   * Which sessions may be opened after a restart: those under which nothing is sealed and that are not named. A
   * session that ended with nothing sealed is among them, though its id was issued before.
   */
  lemma EmptySessionsAreForgotten(config: Config, store: seq<Record>, open: seq<Reopened>, id: SessionId)
    ensures OpenSession(Resume(config, store, open), id).1 <==> !SealedUnder(store, id) && id !in OpenIds(open)
  {
    var loaded := RememberAll(Initial(config).(chain := store, store := store), store);
    RememberedIssued(Initial(config).(chain := store, store := store), store, id);
    ReopenedIssued(loaded, open, store, id);
  }
}
