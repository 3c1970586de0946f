/**
 * What a host keeps true as long as no record that landed unnoticed is adopted into a session still open that
 * does not know it: its sessions know everything sealed in them, so no number and no terminal record is sealed
 * twice.
 */
module HostTidiness {
  import opened Records
  import opened Ledgers
  import opened Hosts
  import opened Chains
  import opened HostInvariants

  /** The session would go on without knowing the record: adoption restores only that an attempt was accepted. */
  ghost predicate Forgets(s: Session, e: Event, numbered: bool) {
    || !e.outcome.Attempted?
    || (numbered && e.signer.Some? && !Decided(s, e.signer.value))
  }

  /** Settling now would adopt a record into a session that is open and forgets it. */
  ghost predicate AdoptsNow(h: Host, read: Read) {
    && h.config.persistent && h.tailUncertain && read.Answered?
    && h.store != h.chain && h.store != []
    && var e := h.store[|h.store| - 1].event;
       e.session in h.sessions && Forgets(h.sessions[e.session], e, Numbering(h))
  }

  ghost predicate Adopts(h: Host, op: Op) {
    match op
    case Attempt(_, _, late, env) => !late && AdoptsNow(h, env.read)
    case Outcome(item, _, env) => item.Some? && AdoptsNow(h, env.read)
    case _ => false
  }

  /** No call of the run adopts a record into an open session that forgets it. */
  ghost predicate NeverAdopts(config: Config, ops: seq<Op>) {
    forall i :: 0 <= i < |ops| ==> !Adopts(Run(Initial(config), ops[..i]), ops[i])
  }

  ghost predicate Numbering(h: Host) {
    h.config.level.L2?
  }

  /** Every record there is, the one still unadopted included. */
  ghost function Whole(h: Host): seq<Record> {
    if h.config.persistent then h.store else h.chain
  }

  ghost predicate KnowsTerminals(s: Session, id: SessionId, records: seq<Record>) {
    && (forall r :: r in records && r.event.session == id && !r.event.outcome.Attempted? ==>
          r.event.id in s.terminal && s.terminal[r.event.id] == r.event)
    && (forall x :: x in s.terminal ==>
          exists r :: r in records && r.event == s.terminal[x] && r.event.session == id
                      && !r.event.outcome.Attempted? && r.event.id == x)
  }

  ghost predicate KnowsNumbers(s: Session, id: SessionId, records: seq<Record>) {
    forall r :: r in records && r.event.session == id && r.event.signer.Some? ==> Decided(s, r.event.signer.value)
  }

  ghost predicate KnowsAttempts(s: Session, id: SessionId, records: seq<Record>) {
    forall x :: AttemptIn(records, id, x) ==> x in s.accepted
  }

  /** The session knows what is sealed in it. */
  ghost predicate Knows(s: Session, id: SessionId, records: seq<Record>, numbered: bool) {
    && KnowsAttempts(s, id, records)
    && KnowsTerminals(s, id, records)
    && (numbered ==> KnowsNumbers(s, id, records))
  }

  ghost predicate AllKnow(sessions: map<SessionId, Session>, records: seq<Record>, numbered: bool) {
    forall id :: id in sessions ==> Knows(sessions[id], id, records, numbered)
  }

  ghost predicate Tidied(h: Host) {
    && Invariant(h)
    && Tidy(Whole(h), Numbering(h))
    && AllKnow(h.sessions, h.chain, Numbering(h))
  }

  // ---------------------------------------------------------------------------------------------------
  // Sessions.

  /** A session that has decided and received more knows as much. */
  ghost predicate Grown(s: Session, s': Session) {
    && s'.accepted == s.accepted && s'.terminal == s.terminal
    && (forall k :: k in s.decided ==> k in s'.decided && s.decided[k] <= s'.decided[k])
    && (forall k :: k in s.received ==> k in s'.received && s.received[k] <= s'.received[k])
  }

  lemma GrownKnows(s: Session, s': Session, id: SessionId, records: seq<Record>, numbered: bool)
    requires Knows(s, id, records, numbered) && Grown(s, s')
    ensures Knows(s', id, records, numbered)
  {
  }

  /** A record of another session changes nothing. */
  lemma OtherKnows(s: Session, id: SessionId, records: seq<Record>, r: Record, numbered: bool)
    requires Knows(s, id, records, numbered) && r.event.session != id
    ensures Knows(s, id, records + [r], numbered)
  {
    forall x | AttemptIn(records + [r], id, x)
      ensures x in s.accepted
    {
      AttemptInExtend(records, r, id, x);
    }
    assert forall x :: x in records + [r] <==> x in records || x == r;
  }

  /** What sealing a record adds to its session. */
  ghost function Sealing(s: Session, e: Event, numbered: bool): Session {
    var decided := if numbered && e.signer.Some? then WithDecision(s, e.signer.value) else s;
    if e.outcome.Attempted? then decided.(accepted := decided.accepted + {e.id})
    else decided.(terminal := decided.terminal[e.id := e])
  }

  lemma SealingKnows(s: Session, records: seq<Record>, r: Record, numbered: bool)
    requires Knows(s, r.event.session, records, numbered)
    requires FitsAfter(records, r.event, numbered)
    ensures Knows(Sealing(s, r.event, numbered), r.event.session, records + [r], numbered)
  {
    var id, all, s' := r.event.session, records + [r], Sealing(s, r.event, numbered);
    assert forall x :: x in all <==> x in records || x == r;
    forall x | AttemptIn(all, id, x)
      ensures x in s'.accepted
    {
      AttemptInExtend(records, r, id, x);
    }
    assert FitsAfter(records, r.event, false);
    SealingKnowsTerminals(s, records, r, numbered);
    if numbered {
      SealingKnowsNumbers(s, records, r);
    }
  }

  lemma SealingKnowsTerminals(s: Session, records: seq<Record>, r: Record, numbered: bool)
    requires KnowsTerminals(s, r.event.session, records) && FitsAfter(records, r.event, false)
    ensures KnowsTerminals(Sealing(s, r.event, numbered), r.event.session, records + [r])
  {
    var id, all, s' := r.event.session, records + [r], Sealing(s, r.event, numbered);
    assert forall x :: x in all <==> x in records || x == r;
    forall x | x in all && x.event.session == id && !x.event.outcome.Attempted?
      ensures x.event.id in s'.terminal && s'.terminal[x.event.id] == x.event
    {
      if x != r {
        assert Compatible(x.event, r.event, false);
      }
    }
    forall x | x in s'.terminal
      ensures exists y :: y in all && y.event == s'.terminal[x] && y.event.session == id
                          && !y.event.outcome.Attempted? && y.event.id == x
    {
      if x == r.event.id && !r.event.outcome.Attempted? {
        assert r in all;
      } else {
        var y :| y in records && y.event == s.terminal[x] && y.event.session == id
                 && !y.event.outcome.Attempted? && y.event.id == x;
        assert y in all;
      }
    }
  }

  lemma SealingKnowsNumbers(s: Session, records: seq<Record>, r: Record)
    requires KnowsNumbers(s, r.event.session, records)
    ensures KnowsNumbers(Sealing(s, r.event, true), r.event.session, records + [r])
  {
    assert forall x :: x in records + [r] <==> x in records || x == r;
  }

  /** A fresh session knows a session id nothing was ever sealed under. */
  lemma FreshKnows(id: SessionId, records: seq<Record>, numbered: bool)
    requires forall r :: r in records ==> r.event.session != id
    ensures Knows(FRESH_SESSION, id, records, numbered)
  {
  }

  lemma {:induction false} RestoredKnows(id: SessionId, records: seq<Record>)
    requires Tidy(records, false)
    ensures Knows(Restored(id, records), id, records, true)
  {
    if records != [] {
      var n := |records| - 1;
      var front, r := records[..n], records[n];
      assert records == front + [r];
      TidyFront(front, r, false);
      RestoredKnows(id, front);
      var s := Restored(id, front);
      if r.event.session != id {
        OtherKnows(s, id, front, r, true);
      } else {
        AbsorbKnows(s, front, r);
      }
    }
  }

  lemma AbsorbKnows(s: Session, records: seq<Record>, r: Record)
    requires Knows(s, r.event.session, records, true) && FitsAfter(records, r.event, false)
    ensures Knows(Absorb(s, r.event.session, r.event), r.event.session, records + [r], true)
  {
    var e := r.event;
    var raised := if e.signer.None? then s else
      var key, number := e.signer.value.key, e.signer.value.number;
      s.(received := s.received[key := if key in s.received && s.received[key] > number then s.received[key] else number]);
    assert Grown(s, raised);
    GrownKnows(s, raised, e.session, records, true);
    assert Sealing(raised, e, true) == Absorb(s, e.session, e);
    assert forall x :: x in records + [r] <==> x in records || x == r;
    forall x | AttemptIn(records + [r], e.session, x)
      ensures x in Absorb(s, e.session, e).accepted
    {
      AttemptInExtend(records, r, e.session, x);
    }
    SealingKnowsTerminals(raised, records, r, true);
    SealingKnowsNumbers(raised, records, r);
  }

  // ---------------------------------------------------------------------------------------------------
  // Changes that seal nothing.

  lemma InitialTidied(config: Config)
    ensures Tidied(Initial(config))
  {
    InitialHolds(config);
  }

  lemma UnseenTidied(h: Host, h': Host)
    requires Tidied(h)
    requires h' == h.(rejectedIds := h'.rejectedIds, anomalies := h'.anomalies, available := h'.available)
    ensures Tidied(h')
  {
    UnseenKeeps(h, h');
  }

  lemma SessionTidied(h: Host, id: SessionId, s: Session)
    requires Tidied(h) && id in h.sessions && Grown(h.sessions[id], s)
    ensures Tidied(WithSession(h, id, s))
  {
    SessionKeeps(h, id, s);
    GrownKnows(h.sessions[id], s, id, h.chain, Numbering(h));
  }

  lemma FlagTidied(h: Host, id: Id, kind: Code)
    requires Tidied(h)
    ensures Tidied(Flag(h, id, kind))
  {
    UnseenTidied(h, Flag(h, id, kind));
  }

  lemma DecideTidied(h: Host, e: Event)
    requires Tidied(h) && e.session in h.sessions
    ensures Tidied(Decide(h, e))
  {
    if Tracked(h, e) {
      SessionTidied(h, e.session, WithDecision(h.sessions[e.session], e.signer.value));
    }
  }

  lemma RefuseTidied(h: Host, e: Event)
    requires Tidied(h) && e.session in h.sessions
    ensures Tidied(RefuseId(h, e, ReplayDetected))
  {
    var noted := h.(rejectedIds := h.rejectedIds + {e.id});
    UnseenTidied(h, noted);
    DecideTidied(noted, e);
    FlagTidied(Decide(noted, e), e.id, ReplayDetected);
  }

  lemma ReceiveTidied(h: Host, e: Event)
    requires Tidied(h) && e.session in h.sessions && e.signer.Some?
    ensures Tidied(Receive(h, e)) && e.session in Receive(h, e).sessions
  {
    var s := h.sessions[e.session];
    var raised := s.(received := s.received[e.signer.value.key := e.signer.value.number]);
    FlagTidied(h, e.id, SignerSeqGap);
    if e.signer.value.key !in s.received || e.signer.value.number > s.received[e.signer.value.key] {
      SessionTidied(h, e.session, raised);
      SessionTidied(Flag(h, e.id, SignerSeqGap), e.session, raised);
    }
  }

  lemma VerifyTidied(h: Host, e: Event, verdict: Verdict)
    requires Tidied(h) && e.session in h.sessions
    ensures var h' := VerifySignature(h, e, verdict).0; Tidied(h') && e.session in h'.sessions
  {
    if h.config.level.L2? {
      if e.signer.None? || verdict.Refuted? {
        FlagTidied(h, e.id, SignatureInvalid);
      } else if verdict.Verifies? {
        ReceiveTidied(h, e);
      }
    }
  }

  /** Clearing an operation whose attempt is sealed changes nothing: the session knows it. */
  lemma ClearTidied(h: Host, e: Event)
    requires Tidied(h) && e.session in h.sessions && AttemptIn(h.chain, e.session, e.id)
    ensures Clear(h, e) == h
  {
    var s := h.sessions[e.session];
    AlreadyAccepted(s, e.session, h.chain, e.id, Numbering(h));
    SameSession(h, e.session, s.(accepted := s.accepted + {e.id}));
  }

  lemma AlreadyAccepted(s: Session, id: SessionId, records: seq<Record>, x: Id, numbered: bool)
    requires Knows(s, id, records, numbered) && AttemptIn(records, id, x)
    ensures s.(accepted := s.accepted + {x}) == s
  {
    assert s.accepted + {x} == s.accepted;
  }

  lemma SameSession(h: Host, id: SessionId, s: Session)
    requires id in h.sessions && s == h.sessions[id]
    ensures WithSession(h, id, s) == h
  {
    assert h.sessions[id := s] == h.sessions;
  }

  // ---------------------------------------------------------------------------------------------------
  // Adoption and sealing.

  lemma AllKnowOther(sessions: map<SessionId, Session>, records: seq<Record>, r: Record, numbered: bool)
    requires AllKnow(sessions, records, numbered) && r.event.session !in sessions
    ensures AllKnow(sessions, records + [r], numbered)
  {
    forall id | id in sessions
      ensures Knows(sessions[id], id, records + [r], numbered)
    {
      OtherKnows(sessions[id], id, records, r, numbered);
    }
  }

  lemma AllKnowSealing(sessions: map<SessionId, Session>, records: seq<Record>, r: Record, numbered: bool)
    requires AllKnow(sessions, records, numbered) && r.event.session in sessions
    requires FitsAfter(records, r.event, numbered)
    ensures var id := r.event.session;
            AllKnow(sessions[id := Sealing(sessions[id], r.event, numbered)], records + [r], numbered)
  {
    var id := r.event.session;
    SealingKnows(sessions[id], records, r, numbered);
    forall x | x in sessions && x != id
      ensures Knows(sessions[x], x, records + [r], numbered)
    {
      OtherKnows(sessions[x], x, records, r, numbered);
    }
  }

  lemma AdoptTidied(h: Host, r: Record)
    requires Tidied(h) && h.config.persistent && h.store == h.chain + [r] && Continues(h.chain, r)
    requires r.event.session in h.sessions ==> !Forgets(h.sessions[r.event.session], r.event, Numbering(h))
    ensures Tidied(Adopt(h, r).(tailUncertain := false))
  {
    AdoptKeeps(h, r);
    DoubtKeeps(Adopt(h, r), false);
    if r.event.session in h.sessions {
      TidyFront(h.chain, r, Numbering(h));
      AllKnowSealing(h.sessions, h.chain, r, Numbering(h));
      RememberedIsSealed(h.sessions[r.event.session], r.event, Numbering(h));
    } else {
      AllKnowOther(h.sessions, h.chain, r, Numbering(h));
    }
  }

  /** A session that does not forget an attempt is missing only that it was accepted. */
  lemma RememberedIsSealed(s: Session, e: Event, numbered: bool)
    requires !Forgets(s, e, numbered)
    ensures Sealing(s, e, numbered) == s.(accepted := s.accepted + {e.id})
  {
    if numbered && e.signer.Some? {
      var known := s.decided[e.signer.value.key];
      assert known + {e.signer.value.number} == known;
      assert s.decided[e.signer.value.key := known] == s.decided;
    }
  }

  lemma SettleTidied(h: Host, read: Read)
    requires Tidied(h) && h.config.persistent && h.tailUncertain && !AdoptsNow(h, read)
    ensures Tidied(SettleTail(h, read).0)
  {
    TailTells(h);
    if read.Answered? {
      if h.store != h.chain {
        var r :| h.store == h.chain + [r] && Continues(h.chain, r);
        assert h.store[|h.store| - 1] == r;
        AdoptTidied(h, r);
      } else {
        DoubtKeeps(h, false);
      }
    }
  }

  lemma ChainKnownTidied(h: Host, read: Read)
    requires Tidied(h) && !AdoptsNow(h, read)
    ensures Tidied(ChainKnown(h, read).0)
  {
    if h.tailUncertain && h.config.persistent {
      SettleTidied(h, read);
    }
  }

  lemma ChainIsTidy(h: Host)
    requires Tidied(h)
    ensures Tidy(h.chain, Numbering(h))
  {
    if h.config.persistent && h.store != h.chain {
      var r :| h.store == h.chain + [r] && Continues(h.chain, r);
      TidyFront(h.chain, r, Numbering(h));
    }
  }

  /** Where an append can leave the store: unchanged, or the chain with one record more. */
  lemma PersistShape(h: Host, r: Record, write: Write)
    requires Invariant(h) && r.position == |h.chain|
    ensures var (h', seal) := Persist(h, r, write);
            && h'.config == h.config && h'.sessions == h.sessions
            && (Whole(h') == Whole(h) || Whole(h') == h.chain + [r])
            && (seal.SealedAs? ==> h'.chain == h.chain + [r] && Whole(h') == h'.chain && seal.record == r)
            && (!seal.SealedAs? ==> h'.chain == h.chain)
  {
    if h.config.persistent {
      TailTells(h);
    }
  }

  /** The record an event would be sealed as. */
  ghost function Candidate(h: Host, e: Event, env: Env): (r: Record)
    ensures r.event == e
  {
    if Prepared(h, e, env).Some? then Prepared(h, e, env).value else SealNext(h.chain, e, env.now)
  }

  lemma SealShape(h: Host, e: Event, env: Env)
    requires Invariant(h)
    ensures var (h', seal) := SealEvent(h, e, env);
            && h'.config == h.config && h'.sessions == h.sessions
            && (Whole(h') == Whole(h) || Whole(h') == h.chain + [Candidate(h, e, env)])
            && (seal.SealedAs? ==> h'.chain == h.chain + [seal.record] && seal.record.event == e)
            && (!seal.SealedAs? ==> h'.chain == h.chain)
  {
    var r := Prepared(h, e, env);
    if r.Some? {
      PersistShape(h, r.value, env.write);
    }
  }

  lemma SealTidy(h: Host, e: Event, env: Env)
    requires Tidied(h) && CanFollow(h.chain, e) && FitsAfter(h.chain, e, Numbering(h)) && e.session in h.sessions
    ensures var (h', seal) := SealEvent(h, e, env);
            && h'.config == h.config
            && Tidy(Whole(h'), Numbering(h'))
            && (!seal.SealedAs? ==> Tidied(h'))
            && (seal.SealedAs? ==> h'.chain == h.chain + [seal.record] && seal.record.event == e)
  {
    SealKeeps(h, e, env);
    SealShape(h, e, env);
    var h' := SealEvent(h, e, env).0;
    WholeTidy(h, h', Candidate(h, e, env));
    if !SealEvent(h, e, env).1.SealedAs? {
      UnsealedTidied(h, h');
    }
  }

  lemma WholeTidy(h: Host, h': Host, r: Record)
    requires Tidied(h) && FitsAfter(h.chain, r.event, Numbering(h)) && h'.config == h.config
    requires Whole(h') == Whole(h) || Whole(h') == h.chain + [r]
    ensures Tidy(Whole(h'), Numbering(h'))
  {
    ChainIsTidy(h);
    TidyExtend(h.chain, r, Numbering(h));
  }

  lemma UnsealedTidied(h: Host, h': Host)
    requires Tidied(h) && Invariant(h') && Tidy(Whole(h'), Numbering(h))
    requires h'.config == h.config && h'.sessions == h.sessions && h'.chain == h.chain
    ensures Tidied(h')
  {
  }

  /** Sealing, once the session has taken the record in. */
  lemma SealedTidied(h: Host, r: Record, h': Host)
    requires Tidied(h) && FitsAfter(h.chain, r.event, Numbering(h)) && r.event.session in h.sessions
    requires Invariant(h') && h'.config == h.config && h'.chain == h.chain + [r] && Tidy(Whole(h'), Numbering(h))
    requires h'.sessions == h.sessions[r.event.session := Sealing(h.sessions[r.event.session], r.event, Numbering(h))]
    ensures Tidied(h')
  {
    AllKnowSealing(h.sessions, h.chain, r, Numbering(h));
  }

  /** What taking a sealed record in does to its session. */
  lemma TakenIn(h: Host, e: Event)
    requires e.session in h.sessions
    ensures var h' := if e.outcome.Attempted? then Clear(Decide(h, e), e) else Conclude(Decide(h, e), e);
            && h' == h.(sessions := h'.sessions)
            && h'.sessions == h.sessions[e.session := Sealing(h.sessions[e.session], e, Numbering(h))]
  {
  }

  lemma AttemptFits(h: Host, e: Event)
    requires Tidied(h) && e.session in h.sessions
    requires e.id !in h.sealedAttempts && e.id !in h.sessions[e.session].terminal && !Replayed(h, e)
    ensures FitsAfter(h.chain, e, Numbering(h))
  {
    var s := h.sessions[e.session];
    assert Knows(s, e.session, h.chain, Numbering(h));
    forall r | r in h.chain
      ensures Compatible(r.event, e, Numbering(h))
    {
    }
  }

  lemma OutcomeFits(h: Host, e: Event)
    requires Tidied(h) && e.session in h.sessions && !e.outcome.Attempted?
    requires e.id !in h.sessions[e.session].terminal && !Replayed(h, e)
    ensures FitsAfter(h.chain, e, Numbering(h))
  {
    var s := h.sessions[e.session];
    assert Knows(s, e.session, h.chain, Numbering(h));
    forall r | r in h.chain
      ensures Compatible(r.event, e, Numbering(h))
    {
    }
  }

  // ---------------------------------------------------------------------------------------------------
  // The calls.

  lemma SealAttemptTidied(h: Host, e: Event, env: Env)
    requires Tidied(h) && e.session in h.sessions
    requires Valid(e) && e.canonicalizable && e.outcome.Attempted?
    ensures Tidied(SealAttempt(h, e, env).0)
  {
    if e.id in h.sealedAttempts {
      if h.sealedAttempts[e.id].event == e {
        ClearTidied(h, e);
      } else {
        RefuseTidied(h, e);
      }
    } else if e.id in h.sessions[e.session].terminal || Replayed(h, e) {
      RefuseTidied(h, e);
    } else if h.available {
      AttemptFits(h, e);
      SealTidy(h, e, env);
      var (h', seal) := SealEvent(h, e, env);
      if seal.SealedAs? {
        SealAttemptKeeps(h, e, env);
        TakenIn(h', e);
        SealedTidied(h, seal.record, Clear(Decide(h', e), e));
      }
    }
  }

  lemma SealOutcomeTidied(h: Host, e: Event, env: Env)
    requires Tidied(h) && e.session in h.sessions
    requires Valid(e) && e.canonicalizable && !e.outcome.Attempted?
    ensures Tidied(SealOutcome(h, e, env).0)
  {
    var s := h.sessions[e.session];
    if e in h.sealedEvents || (e.id in s.terminal && s.terminal[e.id] == e) {
    } else if e.id in s.terminal {
      DecideTidied(h, e);
      FlagTidied(Decide(h, e), e.id, ReplayDetected);
    } else if Replayed(h, e) {
      FlagTidied(h, e.id, ReplayDetected);
    } else if e.id !in s.accepted && !e.outcome.Aborted? {
      DecideTidied(h, e);
      FlagTidied(Decide(h, e), e.id, OrphanedOutcome);
    } else if h.available {
      OutcomeFits(h, e);
      SealTidy(h, e, env);
      var (h', seal) := SealEvent(h, e, env);
      if seal.SealedAs? {
        SealOutcomeKeeps(h, e, env);
        TakenIn(h', e);
        SealedTidied(h, seal.record, Conclude(Decide(h', e), e));
      }
    }
  }

  lemma DecideAttemptTidied(h: Host, e: Event, expected: Option<SessionId>, env: Env)
    requires Tidied(h)
    ensures Tidied(DecideAttempt(h, e, expected, env).0)
  {
    var (admitted, refused) := Admit(h, e, expected, true);
    if refused.None? {
      VerifyTidied(h, e, env.verdict);
      var (verified, checked) := VerifySignature(h, e, env.verdict);
      if checked.Passed? {
        SealAttemptTidied(verified, e, env);
      } else if checked.Refuses? {
        UnseenTidied(verified, verified.(rejectedIds := verified.rejectedIds + {e.id}));
      }
    } else {
      FlagTidied(h, e.id, refused.value);
    }
  }

  lemma AttemptTidied(h: Host, e: Event, expected: Option<SessionId>, late: bool, env: Env)
    requires Tidied(h) && !Adopts(h, Attempt(e, expected, late, env))
    ensures Tidied(HandleAttempt(h, e, expected, late, env).0)
  {
    if !late {
      ChainKnownTidied(h, env.read);
      DecideAttemptTidied(ChainKnown(h, env.read).0, e, expected, env);
    }
  }

  lemma DecideOutcomeTidied(h: Host, e: Event, expected: Option<SessionId>, env: Env)
    requires Tidied(h)
    ensures Tidied(DecideOutcome(h, e, expected, env).0)
  {
    var (admitted, refused) := Admit(h, e, expected, false);
    if refused.None? {
      VerifyTidied(h, e, env.verdict);
      var (verified, checked) := VerifySignature(h, e, env.verdict);
      if checked.Passed? {
        SealOutcomeTidied(verified, e, env);
      }
    } else {
      FlagTidied(h, e.id, refused.value);
    }
  }

  lemma OutcomeTidied(h: Host, item: Option<Event>, expected: Option<SessionId>, env: Env)
    requires Tidied(h) && !Adopts(h, Outcome(item, expected, env))
    ensures Tidied(HandleOutcome(h, item, expected, env).0)
  {
    if item.Some? {
      var (settled, known) := ChainKnown(h, env.read);
      ChainKnownTidied(h, env.read);
      if known.Known? {
        DecideOutcomeTidied(settled, item.value, expected, env);
      }
    } else {
      FlagTidied(h, UNKNOWN_ID, SchemaInvalid);
    }
  }

  lemma OpenTidied(h: Host, id: SessionId)
    requires Tidied(h)
    ensures Tidied(OpenSession(h, id).0)
  {
    OpenKeeps(h, id);
    if id !in h.issued {
      FreshKnows(id, h.chain, Numbering(h));
    }
  }

  lemma CloseTidied(h: Host, id: SessionId)
    requires Tidied(h)
    ensures Tidied(CloseSession(h, id))
  {
    CloseKeeps(h, id);
  }

  lemma ReopenKnows(entry: Reopened, records: seq<Record>, numbered: bool)
    requires Tidy(records, numbered)
    ensures Knows(Reopen(entry, records), entry.session, records, numbered)
  {
    assert Tidy(records, false);
    RestoredKnows(entry.session, records);
    GrownKnows(Restored(entry.session, records), Reopen(entry, records), entry.session, records, true);
  }

  lemma {:induction false} ReopenAllKnow(h: Host, open: seq<Reopened>, records: seq<Record>, numbered: bool)
    requires Tidy(records, numbered) && AllKnow(h.sessions, records, numbered)
    ensures AllKnow(ReopenAll(h, open, records).sessions, records, numbered)
  {
    if open != [] {
      var n := |open| - 1;
      ReopenAllKnow(h, open[..n], records, numbered);
      ReopenKnows(open[n], records, numbered);
    }
  }

  lemma RestartTidied(h: Host, open: seq<Reopened>)
    requires Tidied(h) && h.config.persistent
    ensures Tidied(Resume(h.config, h.store, open))
  {
    StoreIsSane(h);
    ResumedTidied(h.config, h.store, open);
  }

  lemma ResumedTidied(config: Config, store: seq<Record>, open: seq<Reopened>)
    requires config.persistent && Sane(store) && Tidy(store, config.level.L2?)
    ensures Tidied(Resume(config, store, open))
  {
    ResumeHolds(config, store, open);
    LoadedHasNoSessions(config, store);
    ReopenAllKnow(Loaded(config, store), open, store, config.level.L2?);
    ResumedSessions(config, store, open);
    ReopenAllKeepsConfig(Loaded(config, store), open, store);
  }

  lemma LoadedHasNoSessions(config: Config, store: seq<Record>)
    requires config.persistent && Sane(store)
    ensures Loaded(config, store).sessions == map[] && Loaded(config, store).config == config
  {
    RememberAllIndexes(Initial(config).(chain := store, store := store), store);
  }

  lemma {:induction false} ReopenAllKeepsConfig(h: Host, open: seq<Reopened>, records: seq<Record>)
    ensures ReopenAll(h, open, records).config == h.config
  {
    if open != [] {
      ReopenAllKeepsConfig(h, open[..|open| - 1], records);
    }
  }

  lemma ResumedSessions(config: Config, store: seq<Record>, open: seq<Reopened>)
    ensures Resume(config, store, open).sessions == ReopenAll(Loaded(config, store), open, store).sessions
    ensures Resume(config, store, open).config == ReopenAll(Loaded(config, store), open, store).config
  {
  }

  lemma StepTidied(h: Host, op: Op)
    requires Tidied(h) && !Adopts(h, op)
    ensures Tidied(Step(h, op))
  {
    match op
    case Attempt(e, expected, late, env) => AttemptTidied(h, e, expected, late, env);
    case Outcome(item, expected, env) => OutcomeTidied(h, item, expected, env);
    case Open(id) => OpenTidied(h, id);
    case Close(id) => CloseTidied(h, id);
    case SetAvailable(available) => UnseenTidied(h, Step(h, op));
    case Restart(open) =>
      if h.config.persistent {
        RestartTidied(h, open);
      }
  }

  /** From a tidied state, as long as no call adopts so. */
  lemma {:induction false} RunTidiedFrom(h: Host, ops: seq<Op>)
    requires Tidied(h) && forall i :: 0 <= i < |ops| ==> !Adopts(Run(h, ops[..i]), ops[i])
    ensures Tidied(Run(h, ops))
  {
    if ops != [] {
      var n := |ops| - 1;
      assert forall i :: 0 <= i < n ==> ops[..n][..i] == ops[..i];
      RunTidiedFrom(h, ops[..n]);
      StepTidied(Run(h, ops[..n]), ops[n]);
    }
  }

  /** Every state reached without adopting a record into an open session that forgets it is tidied. */
  lemma RunTidied(config: Config, ops: seq<Op>)
    requires NeverAdopts(config, ops)
    ensures Tidied(Run(Initial(config), ops))
  {
    InitialTidied(config);
    RunTidiedFrom(Initial(config), ops);
  }
}
