/**
 * What the host decides, told from the records rather than from its indices: when it accepts, refuses or repeats,
 * that a repeat changes nothing, that failing to record decides nothing, and that a decision is final.
 */
module HostDecisions {
  import opened Records
  import opened Ledgers
  import opened Storage
  import opened Hosts
  import opened Chains
  import opened HostInvariants
  import opened HostTidiness
  import opened Persistence
  import opened Adoption

  /** The tail is known, so a call goes straight to its checks. */
  predicate TailKnown(h: Host) {
    !h.tailUncertain || !h.config.persistent
  }

  ghost predicate Sealed(records: seq<Record>, e: Event) {
    exists r :: r in records && r.event == e
  }

  /** Some attempt is sealed under the id, in whatever session. */
  ghost predicate IdTaken(records: seq<Record>, id: Id) {
    exists r :: r in records && r.event.outcome.Attempted? && r.event.id == id
  }

  ghost predicate Concluded(records: seq<Record>, session: SessionId, id: Id) {
    exists r :: r in records && !r.event.outcome.Attempted? && r.event.session == session && r.event.id == id
  }

  /** What follows sealing succeeds. */
  predicate CanRecord(h: Host, env: Env) {
    h.available && (h.config.countersigner.Some? ==> env.signature.Some?) && (h.config.persistent ==> env.write.Stored?)
  }

  lemma IndexTells(h: Host, id: Id)
    requires Invariant(h)
    ensures id in h.sealedAttempts <==> IdTaken(h.chain, id)
  {
  }

  lemma EventsTell(h: Host, e: Event)
    requires Invariant(h)
    ensures e in h.sealedEvents <==> Sealed(h.chain, e)
  {
  }

  lemma TerminalTells(h: Host, session: SessionId, id: Id)
    requires Tidied(h) && session in h.sessions
    ensures id in h.sessions[session].terminal <==> Concluded(h.chain, session, id)
  {
  }

  lemma AcceptedTells(h: Host, session: SessionId, id: Id)
    requires Tidied(h) && session in h.sessions
    ensures id in h.sessions[session].accepted <==> AttemptIn(h.chain, session, id)
  {
  }

  // ---------------------------------------------------------------------------------------------------
  // Attempts.

  /** An attempt that arrives at a host of known tail, under a verifying signature. */
  ghost predicate AttemptArrives(h: Host, e: Event, env: Env) {
    Tidied(h) && TailKnown(h) && Admissible(h, e, true) && env.verdict.Verifies?
  }

  /** Sealing works just when everyone it needs does their part. */
  lemma SealingWorks(h: Host, e: Event, env: Env)
    requires Invariant(h) && (h.config.persistent ==> h.store == h.chain)
    ensures var (h', seal) := SealEvent(h, e, env);
            && (seal.SealedAs? && h.available <==> CanRecord(h, env))
            && (!seal.SealedAs? ==> h'.chain == h.chain)
  {
    if h.config.persistent {
      TailTells(h);
    }
    if Prepared(h, e, env).Some? {
      PersistingWorks(h, Prepared(h, e, env).value, env.write);
    }
  }

  lemma PersistingWorks(h: Host, r: Record, write: Write)
    requires h.config.persistent ==> NextPosition(h.store) == r.position
    ensures var (h', seal) := Persist(h, r, write);
            && (seal.SealedAs? <==> (h.config.persistent ==> write.Stored?))
            && (!seal.SealedAs? ==> h'.chain == h.chain)
  {
  }

  /** What recording a new attempt comes to. */
  lemma RecordingComesTo(h: Host, e: Event, env: Env)
    requires Invariant(h) && (h.config.persistent ==> h.store == h.chain) && e.session in h.sessions
    ensures var (h', response) := RecordAttempt(h, e, env);
            && (response.Accept? <==> CanRecord(h, env))
            && (response.Accept? || response.Unavailable? || response.Threw?)
            && (!response.Accept? ==> h'.chain == h.chain && h'.sessions == h.sessions)
  {
    SealingWorks(h, e, env);
  }

  /** The checks after the signature, told from the records. */
  lemma SealingComesTo(h: Host, e: Event, env: Env)
    requires Tidied(h) && e.session in h.sessions && (h.config.persistent ==> h.store == h.chain)
    ensures var response := SealAttempt(h, e, env).1;
            && (Sealed(h.chain, e) && e.outcome.Attempted? ==> response.Accept?)
            && (e.outcome.Attempted? && !Sealed(h.chain, e) ==>
                  (response.Reject? <==> IdTaken(h.chain, e.id) || Concluded(h.chain, e.session, e.id) || Replayed(h, e))
                  && (response.Reject? ==> response.code == ReplayDetected)
                  && (!response.Reject? ==> (response.Accept? <==> CanRecord(h, env))))
  {
    IndexTells(h, e.id);
    TerminalTells(h, e.session, e.id);
    RecordingComesTo(h, e, env);
    if e.outcome.Attempted? {
      SealedAttemptIsIndexed(h, e);
    }
  }

  lemma SealedAttemptIsIndexed(h: Host, e: Event)
    requires Invariant(h) && e.outcome.Attempted?
    ensures Sealed(h.chain, e) <==> e.id in h.sealedAttempts && h.sealedAttempts[e.id].event == e
  {
  }

  lemma VerifiedKeepsRecords(h: Host, e: Event)
    requires e.session in h.sessions && (h.config.level.L2? ==> e.signer.Some?)
    ensures var (g, checked) := VerifySignature(h, e, Verifies);
            && checked.Passed? && g.chain == h.chain && g.store == h.store && g.config == h.config
            && g.available == h.available && g.sessions.Keys == h.sessions.Keys
            && g.sessions[e.session].decided == h.sessions[e.session].decided
  {
  }

  /** An attempt that passes the first checks goes on to be sealed. */
  lemma AttemptGoesOn(h: Host, e: Event, env: Env)
    requires TailKnown(h) && Admissible(h, e, true) && env.verdict.Verifies?
    ensures HandleAttempt(h, e, None, false, env) == SealAttempt(VerifySignature(h, e, Verifies).0, e, env)
  {
  }

  /**
   * The decision on an attempt, told from the records. It is accepted at once when exactly it is sealed. Otherwise
   * it is refused as a replay just when its id is taken, its operation is concluded, or its number was decided; and
   * if none of that, it is accepted just when it can be recorded.
   */
  lemma AttemptIsDecidedByRecords(h: Host, e: Event, env: Env)
    requires AttemptArrives(h, e, env) && (h.config.persistent ==> h.store == h.chain)
    ensures var response := HandleAttempt(h, e, None, false, env).1;
            && (Sealed(h.chain, e) ==> response.Accept?)
            && (!Sealed(h.chain, e) ==>
                  (response == Reject(ReplayDetected) <==>
                     IdTaken(h.chain, e.id) || Concluded(h.chain, e.session, e.id) || Replayed(h, e))
                  && (response != Reject(ReplayDetected) ==> (response.Accept? <==> CanRecord(h, env))))
  {
    VerifiedKeepsRecords(h, e);
    VerifyTidied(h, e, Verifies);
    SealingComesTo(VerifySignature(h, e, Verifies).0, e, env);
  }

  /** A repeat is answered as the first time, from the ledger, and nothing is sealed. */
  lemma RepeatChangesNothing(h: Host, e: Event, env: Env, r: Record)
    requires AttemptArrives(h, e, env) && r in h.chain && r.event == e
    ensures var (h', response) := HandleAttempt(h, e, None, false, env);
            && response == AcceptOf(r) && SameLedger(h, h') && e.session in h'.sessions
            && h'.sessions[e.session].decided == h.sessions[e.session].decided
            && h'.sessions[e.session].accepted == h.sessions[e.session].accepted
            && h'.sessions[e.session].terminal == h.sessions[e.session].terminal
  {
    AttemptGoesOn(h, e, env);
    VerifiedIsTheSame(h, e);
    VerifyTidied(h, e, Verifies);
    var g := VerifySignature(h, e, Verifies).0;
    RepeatIsAnswered(g, e, env, r);
    assert HandleAttempt(h, e, None, false, env) == (g, AcceptOf(r));
  }

  lemma RepeatIsAnswered(h: Host, e: Event, env: Env, r: Record)
    requires Tidied(h) && e.session in h.sessions && r in h.chain && r.event == e && e.outcome.Attempted?
    ensures SealAttempt(h, e, env) == (h, AcceptOf(r))
  {
    assert AttemptsIndexed(h.chain, h.sealedAttempts);
    assert AttemptIn(h.chain, e.session, e.id);
    ClearTidied(h, e);
  }

  ghost predicate SameDecisions(h: Host, h': Host, session: SessionId)
    requires session in h.sessions
  {
    && h'.chain == h.chain && h'.sessions.Keys == h.sessions.Keys
    && h'.sessions[session].decided == h.sessions[session].decided
    && h'.sessions[session].accepted == h.sessions[session].accepted
    && h'.sessions[session].terminal == h.sessions[session].terminal
  }

  lemma VerifyingDecidesNothing(h: Host, e: Event, verdict: Verdict)
    requires e.session in h.sessions
    ensures SameDecisions(h, VerifySignature(h, e, verdict).0, e.session)
  {
  }

  lemma UnavailableSealsNothing(h: Host, e: Event, env: Env)
    requires e.session in h.sessions && SealAttempt(h, e, env).1.Unavailable?
    ensures SealAttempt(h, e, env).0.chain == h.chain && SealAttempt(h, e, env).0.sessions == h.sessions
  {
    assert SealAttempt(h, e, env) == RecordAttempt(h, e, env);
    UnrecordedSealsNothing(h, e, env);
  }

  lemma UnrecordedSealsNothing(h: Host, e: Event, env: Env)
    requires e.session in h.sessions && RecordAttempt(h, e, env).1.Unavailable?
    ensures RecordAttempt(h, e, env).0.chain == h.chain && RecordAttempt(h, e, env).0.sessions == h.sessions
  {
    if h.available && Prepared(h, e, env).Some? {
      UnsealedKeepsChain(h, Prepared(h, e, env).value, env.write);
    }
  }

  lemma UnsealedKeepsChain(h: Host, r: Record, write: Write)
    ensures !Persist(h, r, write).1.SealedAs? ==> Persist(h, r, write).0.chain == h.chain
  {
  }

  /**
   * A failure to record decides nothing. Whatever made an attempt unavailable, its number is as open as it was, its
   * operation neither cleared nor concluded, and nothing was committed; so the identical attempt may come again.
   */
  lemma UnavailableDecidesNothing(h: Host, e: Event, env: Env)
    requires Admissible(h, e, true) && TailKnown(h)
    requires HandleAttempt(h, e, None, false, env).1.Unavailable?
    ensures var h' := HandleAttempt(h, e, None, false, env).0;
            && h'.chain == h.chain && h'.sessions.Keys == h.sessions.Keys
            && h'.sessions[e.session].decided == h.sessions[e.session].decided
            && h'.sessions[e.session].accepted == h.sessions[e.session].accepted
            && h'.sessions[e.session].terminal == h.sessions[e.session].terminal
  {
    VerifyingDecidesNothing(h, e, env.verdict);
    var (verified, checked) := VerifySignature(h, e, env.verdict);
    if checked.Passed? {
      UnavailableSealsNothing(verified, e, env);
    }
  }

  /** A replay is a decision: its number is decided, its id is known as rejected, and it is on record as a replay. */
  lemma ReplayIsDecided(h: Host, e: Event, env: Env)
    requires AttemptArrives(h, e, env) && h.config.level.L2?
    requires !Sealed(h.chain, e) && (IdTaken(h.chain, e.id) || Concluded(h.chain, e.session, e.id) || Replayed(h, e))
    ensures var h' := HandleAttempt(h, e, None, false, env).0;
            && h'.chain == h.chain && e.session in h'.sessions && Decided(h'.sessions[e.session], e.signer.value)
            && e.id in h'.rejectedIds
            && h'.anomalies != [] && h'.anomalies[|h'.anomalies| - 1] == Anomaly(e.id, ReplayDetected)
  {
    ReplayComesTo(h, e, env);
    VerifiedIsTheSame(h, e);
    RefusalIsOnRecord(VerifySignature(h, e, Verifies).0, e);
  }

  lemma ReplayComesTo(h: Host, e: Event, env: Env)
    requires AttemptArrives(h, e, env) && !Sealed(h.chain, e)
    requires IdTaken(h.chain, e.id) || Concluded(h.chain, e.session, e.id) || Replayed(h, e)
    ensures var g := VerifySignature(h, e, Verifies).0;
            e.session in g.sessions
            && HandleAttempt(h, e, None, false, env) == (RefuseId(g, e, ReplayDetected), Reject(ReplayDetected))
  {
    AttemptGoesOn(h, e, env);
    VerifiedKeepsRecords(h, e);
    VerifyTidied(h, e, Verifies);
    ReplayIsRefused(VerifySignature(h, e, Verifies).0, e, env);
  }

  lemma ReplayIsRefused(h: Host, e: Event, env: Env)
    requires Tidied(h) && e.session in h.sessions && e.outcome.Attempted? && !Sealed(h.chain, e)
    requires IdTaken(h.chain, e.id) || Concluded(h.chain, e.session, e.id) || Replayed(h, e)
    ensures SealAttempt(h, e, env) == (RefuseId(h, e, ReplayDetected), Reject(ReplayDetected))
  {
    IndexTells(h, e.id);
    TerminalTells(h, e.session, e.id);
    SealedAttemptIsIndexed(h, e);
  }

  lemma RefusalIsOnRecord(h: Host, e: Event)
    requires e.session in h.sessions && Tracked(h, e)
    ensures var h' := RefuseId(h, e, ReplayDetected);
            && h'.chain == h.chain && e.session in h'.sessions && Decided(h'.sessions[e.session], e.signer.value)
            && e.id in h'.rejectedIds
            && h'.anomalies == h.anomalies + [Anomaly(e.id, ReplayDetected)]
  {
  }

  // ---------------------------------------------------------------------------------------------------
  // Outcomes.

  ghost predicate OutcomeArrives(h: Host, e: Event, env: Env) {
    Tidied(h) && TailKnown(h) && Admissible(h, e, false) && env.verdict.Verifies?
  }

  lemma RecordingOutcomeComesTo(h: Host, e: Event, env: Env)
    requires Invariant(h) && (h.config.persistent ==> h.store == h.chain) && e.session in h.sessions
    ensures var (h', disposition) := RecordOutcome(h, e, env);
            && (disposition.Sealed? <==> CanRecord(h, env))
            && (disposition.Sealed? || disposition.NotRecorded? || disposition.OutcomeThrew?)
  {
    SealingWorks(h, e, env);
  }

  lemma SealingOutcomeComesTo(h: Host, e: Event, env: Env)
    requires Tidied(h) && e.session in h.sessions && (h.config.persistent ==> h.store == h.chain)
    requires !e.outcome.Attempted?
    ensures var disposition := SealOutcome(h, e, env).1;
            && (disposition.Repeat? <==> Sealed(h.chain, e))
            && (!Sealed(h.chain, e) ==>
                  (disposition.Refused? <==>
                     Concluded(h.chain, e.session, e.id) || Replayed(h, e)
                     || (!e.outcome.Aborted? && !AttemptIn(h.chain, e.session, e.id)))
                  && (!disposition.Refused? ==> (disposition.Sealed? <==> CanRecord(h, env))))
  {
    EventsTell(h, e);
    TerminalTells(h, e.session, e.id);
    AcceptedTells(h, e.session, e.id);
    RecordingOutcomeComesTo(h, e, env);
    if e.id in h.sessions[e.session].terminal && h.sessions[e.session].terminal[e.id] == e {
      TerminalIsSealed(h, e);
    }
  }

  lemma TerminalIsSealed(h: Host, e: Event)
    requires Tidied(h) && e.session in h.sessions
    requires e.id in h.sessions[e.session].terminal && h.sessions[e.session].terminal[e.id] == e
    ensures Sealed(h.chain, e)
  {
    assert Knows(h.sessions[e.session], e.session, h.chain, Numbering(h));
    assert KnowsTerminals(h.sessions[e.session], e.session, h.chain);
  }

  /**
   * The disposition of an outcome, told from the records. It is a repeat just when exactly it is sealed. Otherwise it
   * is refused just when its operation is concluded, its number was decided, or it reports on an attempt that is not
   * sealed in its session; and if none of that, it is sealed just when it can be recorded.
   */
  lemma OutcomeIsDecidedByRecords(h: Host, e: Event, env: Env)
    requires OutcomeArrives(h, e, env) && (h.config.persistent ==> h.store == h.chain)
    ensures var disposition := HandleOutcome(h, Some(e), None, env).1;
            && (disposition.Repeat? <==> Sealed(h.chain, e))
            && (!Sealed(h.chain, e) ==>
                  (disposition.Refused? <==>
                     Concluded(h.chain, e.session, e.id) || Replayed(h, e)
                     || (!e.outcome.Aborted? && !AttemptIn(h.chain, e.session, e.id)))
                  && (!disposition.Refused? ==> (disposition.Sealed? <==> CanRecord(h, env))))
  {
    VerifiedKeepsRecords(h, e);
    VerifyTidied(h, e, Verifies);
    SealingOutcomeComesTo(VerifySignature(h, e, Verifies).0, e, env);
  }
}
