/**
 * One numbering over a host in the same process: the numbers a session gives out are the ones the host expects, so
 * nothing it emits is flagged, and what is missing from the ledger is accounted for by its own refusals.
 */
module ToolNumbering {
  import opened Records
  import opened Ledgers
  import opened Hosts
  import opened Chains
  import opened HostInvariants
  import opened HostTidiness
  import opened Persistence
  import opened Tools

  // ---------------------------------------------------------------------------------------------------
  // What one emission does to the host, as long as failing appends store nothing.

  /** The store holds what the host committed, and nothing more. */
  ghost predicate Clean(h: Host) {
    Invariant(h) && (h.config.persistent ==> h.store == h.chain)
  }

  predicate CleanEnv(env: Env) {
    env.read.Answered? && (env.write.Stored? || env.write.FailedClean?)
  }

  /** Sealing happened, or nothing did. */
  ghost predicate LedgerTook(h: Host, h': Host, e: Event, sealed: bool) {
    && Clean(h') && h'.config == h.config && h'.anomalies == h.anomalies && h'.sessions.Keys == h.sessions.Keys
    && (if sealed then exists r :: h'.chain == h.chain + [r] && r.event == e else h'.chain == h.chain)
  }

  /** What a session is left as by an event under a number it was expecting. */
  ghost predicate SessionTook(s: Session, s': Session, e: Event, sealed: bool)
    requires e.signer.Some?
  {
    && s'.received == s.received[e.signer.value.key := e.signer.value.number]
    && s'.decided == (if sealed then WithDecision(s, e.signer.value).decided else s.decided)
    && s'.accepted == (if sealed && e.outcome.Attempted? then s.accepted + {e.id} else s.accepted)
    && s'.terminal == (if sealed && !e.outcome.Attempted? then s.terminal[e.id := e] else s.terminal)
  }

  ghost predicate Took(h: Host, h': Host, e: Event, sealed: bool)
    requires e.signer.Some?
  {
    && LedgerTook(h, h', e, sealed)
    && e.session in h.sessions
    && SessionTook(h.sessions[e.session], h'.sessions[e.session], e, sealed)
  }

  /** A well-formed event of an open session, under the number the host expects next of its key. */
  predicate Expects(h: Host, e: Event) {
    && h.config.level.L2? && Valid(e) && e.canonicalizable && e.signer.Some? && e.session in h.sessions
    && e.signer.value.number == Expected(h.sessions[e.session], e.signer.value.key)
    && !Decided(h.sessions[e.session], e.signer.value)
    && e.id !in h.sessions[e.session].terminal
  }

  function WithReceived(h: Host, e: Event): Host
    requires e.signer.Some? && e.session in h.sessions
  {
    var s := h.sessions[e.session];
    WithSession(h, e.session, s.(received := s.received[e.signer.value.key := e.signer.value.number]))
  }

  lemma CleanSettles(h: Host)
    requires Clean(h)
    ensures var (settled, known) := ChainKnown(h, Answered);
            known.Known? && settled == h.(tailUncertain := settled.tailUncertain) && Clean(settled)
  {
    if h.config.persistent {
      TailTells(h);
      DoubtKeeps(h, false);
    }
  }

  /** A number that is expected opens no gap. */
  lemma ExpectedIsReceived(h: Host, e: Event)
    requires Expects(h, e)
    ensures VerifySignature(h, e, Verifies) == (WithReceived(h, e), Passed)
  {
  }

  lemma ReceivedStaysClean(h: Host, e: Event)
    requires Clean(h) && Expects(h, e)
    ensures Clean(WithReceived(h, e))
  {
  }

  lemma CleanSeals(h: Host, e: Event, env: Env)
    requires Clean(h) && CleanEnv(env) && CanFollow(h.chain, e) && e.session in h.sessions
    ensures var (h', seal) := SealEvent(h, e, env);
            && !seal.SealThrew? && LedgerTook(h, h', e, seal.SealedAs?)
  {
    SealKeeps(h, e, env);
    if Prepared(h, e, env).Some? {
      CleanPersists(h, Prepared(h, e, env).value, env);
    }
  }

  lemma StoresOrNot(h: Host, r: Record, write: Write)
    requires h.config.persistent && (write.Stored? || write.FailedClean?) && h.store == h.chain
    ensures var (h', seal) := Persist(h, r, write);
            && !seal.SealThrew? && h'.store == h'.chain
            && h'.config == h.config && h'.anomalies == h.anomalies && h'.sessions == h.sessions
            && (if seal.SealedAs? then seal.record == r && h'.chain == h.chain + [r] else h'.chain == h.chain)
  {
  }

  lemma CleanPersists(h: Host, r: Record, env: Env)
    requires Clean(h) && CleanEnv(env)
    ensures var (h', seal) := Persist(h, r, env.write);
            && !seal.SealThrew? && (h'.config.persistent ==> h'.store == h'.chain)
            && h'.config == h.config && h'.anomalies == h.anomalies && h'.sessions == h.sessions
            && (if seal.SealedAs? then seal.record == r && h'.chain == h.chain + [r] else h'.chain == h.chain)
  {
    if h.config.persistent {
      TailTells(h);
      StoresOrNot(h, r, env.write);
    }
  }

  /** What is done once an event is sealed: its number is decided, and its operation cleared or concluded. */
  function Noted(s: Session, e: Event): Session
    requires e.signer.Some?
  {
    var decided := WithDecision(s, e.signer.value);
    if e.outcome.Attempted? then decided.(accepted := decided.accepted + {e.id})
    else decided.(terminal := decided.terminal[e.id := e])
  }

  lemma AttemptIsNoted(h: Host, e: Event)
    requires Tracked(h, e) && e.session in h.sessions && e.outcome.Attempted?
    ensures Clear(Decide(h, e), e) == WithSession(h, e.session, Noted(h.sessions[e.session], e))
  {
  }

  lemma OutcomeIsNoted(h: Host, e: Event)
    requires Tracked(h, e) && e.session in h.sessions && !e.outcome.Attempted?
    ensures Conclude(Decide(h, e), e) == WithSession(h, e.session, Noted(h.sessions[e.session], e))
  {
  }

  lemma NotingStaysClean(h: Host, e: Event)
    requires Clean(h) && e.session in h.sessions && e.signer.Some?
    requires e.outcome.Attempted? ==> AttemptIn(h.chain, e.session, e.id)
    ensures Clean(WithSession(h, e.session, Noted(h.sessions[e.session], e)))
  {
  }

  /** From sealing on, where the session's number is received already. */
  ghost predicate Recorded(h: Host, h': Host, e: Event, sealed: bool)
    requires e.signer.Some? && e.session in h.sessions
  {
    && LedgerTook(h, h', e, sealed)
    && h'.sessions[e.session] == (if sealed then Noted(h.sessions[e.session], e) else h.sessions[e.session])
  }

  lemma SealedIsRecorded(h: Host, g: Host, r: Record, e: Event)
    requires e.session in h.sessions && Tracked(h, e)
    requires LedgerTook(h, g, e, true) && g.chain == h.chain + [r] && r.event == e && g.sessions == h.sessions
    ensures var h' := if e.outcome.Attempted? then Clear(Decide(g, e), e) else Conclude(Decide(g, e), e);
            Recorded(h, h', e, true)
  {
    AttemptInExtend(h.chain, r, e.session, e.id);
    NotingStaysClean(g, e);
    if e.outcome.Attempted? {
      AttemptIsNoted(g, e);
    } else {
      OutcomeIsNoted(g, e);
    }
    NotedIsRecorded(h, g, WithSession(g, e.session, Noted(g.sessions[e.session], e)), r, e);
  }

  lemma NotedIsRecorded(h: Host, g: Host, h': Host, r: Record, e: Event)
    requires e.session in h.sessions && e.signer.Some? && Clean(h')
    requires g.config == h.config && g.anomalies == h.anomalies && g.sessions == h.sessions
    requires g.chain == h.chain + [r] && r.event == e
    requires h' == WithSession(g, e.session, Noted(g.sessions[e.session], e))
    ensures Recorded(h, h', e, true)
  {
  }

  lemma NewAttemptIsRecorded(h: Host, e: Event, env: Env)
    requires Clean(h) && CleanEnv(env) && Tracked(h, e) && e.session in h.sessions
    requires CanFollow(h.chain, e) && e.outcome.Attempted?
    ensures var (h', response) := RecordAttempt(h, e, env);
            Recorded(h, h', e, response.Accept?) && (!response.Accept? ==> response.Unavailable?)
  {
    if h.available {
      CleanSeals(h, e, env);
      var (g, seal) := SealEvent(h, e, env);
      if seal.SealedAs? {
        SealKeeps(h, e, env);
        SealedIsRecorded(h, g, seal.record, e);
      }
    }
  }

  lemma NewOutcomeIsRecorded(h: Host, e: Event, env: Env)
    requires Clean(h) && CleanEnv(env) && Tracked(h, e) && e.session in h.sessions
    requires CanFollow(h.chain, e) && !e.outcome.Attempted?
    ensures var (h', disposition) := RecordOutcome(h, e, env);
            Recorded(h, h', e, disposition.Sealed?) && (!disposition.Sealed? ==> disposition.NotRecorded?)
  {
    if h.available {
      CleanSeals(h, e, env);
      var (g, seal) := SealEvent(h, e, env);
      if seal.SealedAs? {
        SealKeeps(h, e, env);
        SealedIsRecorded(h, g, seal.record, e);
      }
    }
  }

  lemma FreshAttemptFollows(h: Host, e: Event)
    requires Invariant(h) && Valid(e) && e.canonicalizable && e.outcome.Attempted? && e.id !in h.sealedAttempts
    ensures CanFollow(h.chain, e)
  {
  }

  lemma OwedOutcomeFollows(h: Host, e: Event)
    requires Invariant(h) && Valid(e) && e.canonicalizable && !e.outcome.Attempted? && e.session in h.sessions
    requires e.outcome.Aborted? || e.id in h.sessions[e.session].accepted
    ensures CanFollow(h.chain, e)
  {
    assert Cleared(h.sessions[e.session], e.session, h.chain);
  }

  /** Receiving and recording, together. */
  lemma TookBoth(h0: Host, h: Host, h': Host, e: Event, sealed: bool)
    requires Expects(h, e) && h == h0.(tailUncertain := h.tailUncertain)
    requires Recorded(WithReceived(h, e), h', e, sealed)
    ensures Took(h0, h', e, sealed)
  {
    assert WithReceived(h, e).sessions.Keys == h.sessions.Keys;
  }

  /** A new attempt under the number expected is sealed or not persisted; nothing is flagged. */
  lemma AttemptIsTaken(h: Host, e: Event, env: Env)
    requires Clean(h) && CleanEnv(env) && env.verdict.Verifies? && Expects(h, e)
    requires e.outcome.Attempted? && e.id !in h.sealedAttempts
    ensures var (h', response) := HandleAttempt(h, e, None, false, env);
            Took(h, h', e, response.Accept?) && (!response.Accept? ==> response.Unavailable?)
  {
    CleanSettles(h);
    var settled := ChainKnown(h, Answered).0;
    ExpectedIsReceived(settled, e);
    ReceivedStaysClean(settled, e);
    var verified := WithReceived(settled, e);
    FreshAttemptFollows(verified, e);
    NewAttemptIsRecorded(verified, e, env);
    assert SealAttempt(verified, e, env) == RecordAttempt(verified, e, env);
    TookBoth(h, settled, RecordAttempt(verified, e, env).0, e, RecordAttempt(verified, e, env).1.Accept?);
  }

  /** And so is an outcome that is owed. */
  lemma OutcomeIsTaken(h: Host, e: Event, env: Env)
    requires Clean(h) && CleanEnv(env) && env.verdict.Verifies? && Expects(h, e)
    requires !e.outcome.Attempted? && (e.outcome.Aborted? || e.id in h.sessions[e.session].accepted)
    requires e !in h.sealedEvents
    ensures var (h', disposition) := HandleOutcome(h, Some(e), None, env);
            Took(h, h', e, disposition.Sealed?) && (!disposition.Sealed? ==> disposition.NotRecorded?)
  {
    CleanSettles(h);
    var settled := ChainKnown(h, Answered).0;
    ExpectedIsReceived(settled, e);
    ReceivedStaysClean(settled, e);
    var verified := WithReceived(settled, e);
    OwedOutcomeFollows(verified, e);
    NewOutcomeIsRecorded(verified, e, env);
    assert SealOutcome(verified, e, env) == RecordOutcome(verified, e, env);
    TookBoth(h, settled, RecordOutcome(verified, e, env).0, e, RecordOutcome(verified, e, env).1.Sealed?);
  }

  // ---------------------------------------------------------------------------------------------------
  // Whatever else uses the host.

  /** A call that is not of this session, whose appends fail cleanly and whose reads answer. */
  predicate Apart(op: Op, session: SessionId) {
    match op
    case Attempt(e, _, _, env) => e.session != session && CleanEnv(env)
    case Outcome(item, _, env) => (item.Some? ==> item.value.session != session) && CleanEnv(env)
    case Open(_) => true
    case Close(id) => id != session
    case SetAvailable(_) => true
    case Restart(_) => false
  }

  ghost predicate Leaves(h: Host, h': Host, session: SessionId) {
    session in h.sessions ==> session in h'.sessions && h'.sessions[session] == h.sessions[session]
  }

  lemma RecordingLeaves(h: Host, e: Event, env: Env, session: SessionId)
    requires e.session in h.sessions && e.session != session
    ensures Leaves(h, RecordAttempt(h, e, env).0, session) && Leaves(h, RecordOutcome(h, e, env).0, session)
  {
  }

  lemma SealingLeaves(h: Host, e: Event, env: Env, session: SessionId)
    requires e.session in h.sessions && e.session != session
    ensures Leaves(h, SealAttempt(h, e, env).0, session) && Leaves(h, SealOutcome(h, e, env).0, session)
  {
    RecordingLeaves(h, e, env, session);
  }

  lemma VerifyingLeaves(h: Host, e: Event, verdict: Verdict, session: SessionId)
    requires e.session in h.sessions && e.session != session
    ensures Leaves(h, VerifySignature(h, e, verdict).0, session)
  {
  }

  lemma AttemptLeaves(h: Host, e: Event, expected: Option<SessionId>, env: Env, session: SessionId)
    requires e.session != session
    ensures Leaves(h, DecideAttempt(h, e, expected, env).0, session)
  {
    if e.session in h.sessions {
      VerifyingLeaves(h, e, env.verdict, session);
      SealingLeaves(VerifySignature(h, e, env.verdict).0, e, env, session);
    }
  }

  lemma OutcomeLeaves(h: Host, e: Event, expected: Option<SessionId>, env: Env, session: SessionId)
    requires e.session != session
    ensures Leaves(h, DecideOutcome(h, e, expected, env).0, session)
  {
    if e.session in h.sessions {
      VerifyingLeaves(h, e, env.verdict, session);
      SealingLeaves(VerifySignature(h, e, env.verdict).0, e, env, session);
    }
  }

  lemma SealingStaysClean(h: Host, h': Host, e: Event, env: Env)
    requires Clean(h) && Invariant(h') && CleanEnv(env) && SealsAtMost(h, h', e, env)
    ensures Clean(h')
  {
    if h.config.persistent && Prepared(h, e, env).Some? {
      TailTells(h);
    }
  }

  lemma AttemptElsewhere(h: Host, e: Event, expected: Option<SessionId>, env: Env, session: SessionId)
    requires Clean(h) && CleanEnv(env) && e.session != session
    ensures var h' := HandleAttempt(h, e, expected, false, env).0; Clean(h') && Leaves(h, h', session)
  {
    CleanSettles(h);
    var settled := ChainKnown(h, Answered).0;
    var h' := DecideAttempt(settled, e, expected, env).0;
    DecideAttemptKeeps(settled, e, expected, env);
    DecideAttemptSeals(settled, e, expected, env);
    SealingStaysClean(settled, h', e, env);
    AttemptLeaves(settled, e, expected, env, session);
  }

  lemma OutcomeElsewhere(h: Host, e: Event, expected: Option<SessionId>, env: Env, session: SessionId)
    requires Clean(h) && CleanEnv(env) && e.session != session
    ensures var h' := HandleOutcome(h, Some(e), expected, env).0; Clean(h') && Leaves(h, h', session)
  {
    CleanSettles(h);
    var settled := ChainKnown(h, Answered).0;
    var h' := DecideOutcome(settled, e, expected, env).0;
    DecideOutcomeKeeps(settled, e, expected, env);
    DecideOutcomeSeals(settled, e, expected, env);
    SealingStaysClean(settled, h', e, env);
    OutcomeLeaves(settled, e, expected, env, session);
  }

  lemma ElsewhereStaysClean(h: Host, op: Op, session: SessionId)
    requires Clean(h) && Apart(op, session)
    ensures Clean(Step(h, op)) && Leaves(h, Step(h, op), session)
  {
    StepKeeps(h, op);
    match op
    case Attempt(e, expected, late, env) =>
      if !late {
        AttemptElsewhere(h, e, expected, env, session);
      }
    case Outcome(item, expected, env) =>
      if item.Some? {
        OutcomeElsewhere(h, item.value, expected, env, session);
      }
    case Open(id) => OpeningLeaves(h, id, session);
    case Close(id) =>
    case SetAvailable(available) =>
  }

  lemma OpeningLeaves(h: Host, id: SessionId, session: SessionId)
    requires Invariant(h)
    ensures Leaves(h, OpenSession(h, id).0, session)
  {
  }

  /** What a call of another session adds to the chain is of another session. */
  lemma ElsewhereAdds(h: Host, op: Op, session: SessionId)
    requires Clean(h) && Apart(op, session)
    ensures var h' := Step(h, op);
            && h'.config == h.config
            && (h'.chain == h.chain || exists r: Record :: r.event.session != session && h'.chain == h.chain + [r])
  {
    ElsewhereStaysClean(h, op, session);
    StepAdds(h, op);
    var h' := Step(h, op);
    assert Whole(h) == h.chain && Whole(h') == h'.chain;
    if h'.chain != h.chain {
      var r :| Made(h.config, r) && r.event in SentBy(op) && h'.chain == h.chain + [r];
    }
  }
}
