/** What the host received: every number sealed in an open session was received there, unless adoption took it over. */
module Trackers {
  import opened Records
  import opened Ledgers
  import opened Hosts
  import opened Chains
  import opened HostInvariants
  import opened HostTidiness
  import opened Persistence

  ghost predicate ReceivedUpTo(s: Session, signer: Signer) {
    signer.key in s.received && signer.number <= s.received[signer.key]
  }

  ghost predicate KnowsReceived(s: Session, id: SessionId, records: seq<Record>) {
    forall r :: r in records && r.event.session == id && r.event.signer.Some? ==> ReceivedUpTo(s, r.event.signer.value)
  }

  ghost predicate AllReceived(sessions: map<SessionId, Session>, records: seq<Record>) {
    forall id :: id in sessions ==> KnowsReceived(sessions[id], id, records)
  }

  ghost predicate Received(h: Host) {
    Numbering(h) ==> AllReceived(h.sessions, h.chain)
  }

  /** Settling now would adopt a record into a session that is open and has not received its number. */
  ghost predicate AdoptsUnreceived(h: Host, read: Read) {
    && h.config.persistent && h.tailUncertain && read.Answered?
    && h.store != h.chain && h.store != []
    && var e := h.store[|h.store| - 1].event;
       Numbering(h) && e.session in h.sessions && e.signer.Some? && !ReceivedUpTo(h.sessions[e.session], e.signer.value)
  }

  ghost predicate TakesUnreceived(h: Host, op: Op) {
    match op
    case Attempt(_, _, late, env) => !late && AdoptsUnreceived(h, env.read)
    case Outcome(item, _, env) => item.Some? && AdoptsUnreceived(h, env.read)
    case _ => false
  }

  /** No call of the run adopts a record whose number its open session has not received. */
  ghost predicate NeverUnreceived(config: Config, ops: seq<Op>) {
    forall i :: 0 <= i < |ops| ==> !TakesUnreceived(Run(Initial(config), ops[..i]), ops[i])
  }

  // ---------------------------------------------------------------------------------------------------
  // What the parts of a call do to what was received.

  /** The same sessions are open, and none has received less. */
  ghost predicate ReceivesOn(sessions: map<SessionId, Session>, sessions': map<SessionId, Session>) {
    && sessions'.Keys == sessions.Keys
    && forall id :: id in sessions ==>
         forall k :: k in sessions[id].received ==>
           k in sessions'[id].received && sessions[id].received[k] <= sessions'[id].received[k]
  }

  lemma ReceivesOnThen(a: map<SessionId, Session>, b: map<SessionId, Session>, c: map<SessionId, Session>)
    requires ReceivesOn(a, b) && ReceivesOn(b, c)
    ensures ReceivesOn(a, c)
  {
    forall id, k | id in a && k in a[id].received
      ensures k in c[id].received && a[id].received[k] <= c[id].received[k]
    {
      assert k in b[id].received;
    }
  }

  lemma StillReceived(sessions: map<SessionId, Session>, sessions': map<SessionId, Session>, records: seq<Record>)
    requires AllReceived(sessions, records) && ReceivesOn(sessions, sessions')
    ensures AllReceived(sessions', records)
  {
    forall id, r | id in sessions' && r in records && r.event.session == id && r.event.signer.Some?
      ensures ReceivedUpTo(sessions'[id], r.event.signer.value)
    {
      assert KnowsReceived(sessions[id], id, records);
    }
  }

  /** One record more, its number received. */
  lemma OneMoreReceived(sessions: map<SessionId, Session>, records: seq<Record>, r: Record)
    requires AllReceived(sessions, records)
    requires r.event.session in sessions && r.event.signer.Some? ==> ReceivedUpTo(sessions[r.event.session], r.event.signer.value)
    ensures AllReceived(sessions, records + [r])
  {
    assert forall x :: x in records + [r] <==> x in records || x == r;
    forall id | id in sessions
      ensures KnowsReceived(sessions[id], id, records + [r])
    {
      assert KnowsReceived(sessions[id], id, records);
    }
  }

  lemma ClearReceives(h: Host, e: Event)
    ensures ReceivesOn(h.sessions, Clear(h, e).sessions) && Clear(h, e).chain == h.chain
  {
  }

  lemma DecideReceives(h: Host, e: Event)
    requires e.session in h.sessions
    ensures ReceivesOn(h.sessions, Decide(h, e).sessions) && Decide(h, e).chain == h.chain
  {
  }

  lemma AdoptReceives(h: Host, r: Record)
    ensures ReceivesOn(h.sessions, Adopt(h, r).sessions) && Adopt(h, r).chain == h.chain + [r]
  {
    ClearReceives(Commit(h, r), r.event);
  }

  lemma AdoptedIsReceived(h: Host, r: Record)
    requires Received(h)
    requires Numbering(h) && r.event.session in h.sessions && r.event.signer.Some? ==>
               ReceivedUpTo(h.sessions[r.event.session], r.event.signer.value)
    ensures Received(Adopt(h, r).(tailUncertain := false))
  {
    AdoptReceives(h, r);
    if Numbering(h) {
      OneMoreReceived(h.sessions, h.chain, r);
      StillReceived(h.sessions, Adopt(h, r).sessions, h.chain + [r]);
    }
  }

  lemma SettleReceives(h: Host, read: Read)
    requires Invariant(h) && Received(h) && !AdoptsUnreceived(h, read)
    ensures Received(ChainKnown(h, read).0)
  {
    if h.config.persistent && h.tailUncertain && read.Answered? {
      TailTells(h);
      if h.store != h.chain {
        AdoptedIsReceived(h, h.store[|h.store| - 1]);
      }
    }
  }

  lemma ReceiveReceives(h: Host, e: Event)
    requires e.session in h.sessions && e.signer.Some?
    ensures var h' := Receive(h, e);
            && ReceivesOn(h.sessions, h'.sessions) && h'.chain == h.chain && h'.config == h.config
            && ReceivedUpTo(h'.sessions[e.session], e.signer.value)
  {
  }

  /** An event that passed has been received, where numbers are kept. */
  lemma VerifyReceives(h: Host, e: Event, verdict: Verdict)
    requires e.session in h.sessions
    ensures var (h', checked) := VerifySignature(h, e, verdict);
            && ReceivesOn(h.sessions, h'.sessions) && h'.chain == h.chain && h'.config == h.config
            && (checked.Passed? && Numbering(h) ==>
                  e.signer.Some? && ReceivedUpTo(h'.sessions[e.session], e.signer.value))
  {
    if e.signer.Some? {
      ReceiveReceives(h, e);
    }
  }

  /** From there on nothing is received, and at most the event is sealed. */
  ghost predicate SealsOne(h: Host, h': Host, e: Event) {
    && h'.config == h.config && ReceivesOn(h.sessions, h'.sessions)
    && (h'.chain == h.chain || exists r: Record :: r.event == e && h'.chain == h.chain + [r])
  }

  lemma SealChain(h: Host, h': Host, e: Event, env: Env)
    requires Invariant(h) && SealsAtMost(h, h', e, env)
    ensures h'.config == h.config && (h'.chain == h.chain || exists r: Record :: r.event == e && h'.chain == h.chain + [r])
  {
    SealShape(h, e, env);
    var (g, seal) := SealEvent(h, e, env);
    if !SameLedger(h, h') && seal.SealedAs? {
      assert seal.record.event == e && h'.chain == h.chain + [seal.record];
    }
  }

  lemma RefuseReceives(h: Host, e: Event)
    requires e.session in h.sessions
    ensures ReceivesOn(h.sessions, RefuseId(h, e, ReplayDetected).sessions)
  {
    DecideReceives(h.(rejectedIds := h.rejectedIds + {e.id}), e);
  }

  lemma RecordAttemptReceives(h: Host, e: Event, env: Env)
    requires e.session in h.sessions
    ensures ReceivesOn(h.sessions, RecordAttempt(h, e, env).0.sessions)
  {
    var g := SealEvent(h, e, env).0;
    DecideReceives(g, e);
    ClearReceives(Decide(g, e), e);
    ReceivesOnThen(h.sessions, Decide(g, e).sessions, Clear(Decide(g, e), e).sessions);
  }

  lemma AttemptSessions(h: Host, e: Event, env: Env)
    requires e.session in h.sessions
    ensures ReceivesOn(h.sessions, SealAttempt(h, e, env).0.sessions)
  {
    RefuseReceives(h, e);
    ClearReceives(h, e);
    RecordAttemptReceives(h, e, env);
  }

  lemma SealAttemptReceives(h: Host, e: Event, env: Env)
    requires Invariant(h) && e.session in h.sessions
    ensures SealsOne(h, SealAttempt(h, e, env).0, e)
  {
    SealAttemptSeals(h, e, env);
    SealChain(h, SealAttempt(h, e, env).0, e, env);
    AttemptSessions(h, e, env);
  }

  lemma ConcludeReceives(h: Host, e: Event)
    requires e.session in h.sessions
    ensures ReceivesOn(h.sessions, Conclude(h, e).sessions)
  {
  }

  lemma RecordOutcomeReceives(h: Host, e: Event, env: Env)
    requires e.session in h.sessions
    ensures ReceivesOn(h.sessions, RecordOutcome(h, e, env).0.sessions)
  {
    var g := SealEvent(h, e, env).0;
    DecideReceives(g, e);
    ConcludeReceives(Decide(g, e), e);
    ReceivesOnThen(h.sessions, Decide(g, e).sessions, Conclude(Decide(g, e), e).sessions);
  }

  lemma OutcomeSessions(h: Host, e: Event, env: Env)
    requires e.session in h.sessions
    ensures ReceivesOn(h.sessions, SealOutcome(h, e, env).0.sessions)
  {
    DecideReceives(h, e);
    RecordOutcomeReceives(h, e, env);
    assert forall kind :: Flag(Decide(h, e), e.id, kind).sessions == Decide(h, e).sessions;
  }

  lemma SealOutcomeReceives(h: Host, e: Event, env: Env)
    requires Invariant(h) && e.session in h.sessions
    ensures SealsOne(h, SealOutcome(h, e, env).0, e)
  {
    SealOutcomeSeals(h, e, env);
    SealChain(h, SealOutcome(h, e, env).0, e, env);
    OutcomeSessions(h, e, env);
  }

  lemma SealedIsReceived(h: Host, verified: Host, h': Host, e: Event)
    requires Received(h) && ReceivesOn(h.sessions, verified.sessions) && verified.chain == h.chain && verified.config == h.config
    requires e.session in verified.sessions
    requires Numbering(h) ==> e.signer.Some? && ReceivedUpTo(verified.sessions[e.session], e.signer.value)
    requires SealsOne(verified, h', e)
    ensures Received(h')
  {
    if Numbering(h) {
      StillReceived(h.sessions, verified.sessions, h.chain);
      if h'.chain != h.chain {
        var r: Record :| r.event == e && h'.chain == h.chain + [r];
        OneMoreReceived(verified.sessions, h.chain, r);
      }
      StillReceived(verified.sessions, h'.sessions, h'.chain);
    }
  }

  lemma DecideAttemptReceives(h: Host, e: Event, expected: Option<SessionId>, env: Env)
    requires Invariant(h) && Received(h)
    ensures Received(DecideAttempt(h, e, expected, env).0)
  {
    if Admit(h, e, expected, true).1.None? {
      VerifyReceives(h, e, env.verdict);
      VerifyKeeps(h, e, env.verdict);
      var (verified, checked) := VerifySignature(h, e, env.verdict);
      if Numbering(h) {
        StillReceived(h.sessions, verified.sessions, h.chain);
      }
      if checked.Passed? {
        SealAttemptReceives(verified, e, env);
        SealedIsReceived(h, verified, SealAttempt(verified, e, env).0, e);
      }
    }
  }

  lemma DecideOutcomeReceives(h: Host, e: Event, expected: Option<SessionId>, env: Env)
    requires Invariant(h) && Received(h)
    ensures Received(DecideOutcome(h, e, expected, env).0)
  {
    if Admit(h, e, expected, false).1.None? {
      VerifyReceives(h, e, env.verdict);
      VerifyKeeps(h, e, env.verdict);
      var (verified, checked) := VerifySignature(h, e, env.verdict);
      if Numbering(h) {
        StillReceived(h.sessions, verified.sessions, h.chain);
      }
      if checked.Passed? {
        SealOutcomeReceives(verified, e, env);
        SealedIsReceived(h, verified, SealOutcome(verified, e, env).0, e);
      }
    }
  }

  // ---------------------------------------------------------------------------------------------------
  // Restart.

  lemma {:induction false} RestoredReceives(id: SessionId, records: seq<Record>)
    ensures KnowsReceived(Restored(id, records), id, records)
  {
    if records != [] {
      var n := |records| - 1;
      RestoredReceives(id, records[..n]);
      AbsorbReceives(Restored(id, records[..n]), id, records[..n], records[n]);
      assert records == records[..n] + [records[n]];
    }
  }

  lemma AbsorbReceives(s: Session, id: SessionId, records: seq<Record>, r: Record)
    requires KnowsReceived(s, id, records)
    ensures KnowsReceived(Absorb(s, id, r.event), id, records + [r])
  {
    assert forall x :: x in records + [r] <==> x in records || x == r;
  }

  lemma {:induction false} ReopenAllReceives(h: Host, open: seq<Reopened>, records: seq<Record>)
    requires AllReceived(h.sessions, records)
    ensures AllReceived(ReopenAll(h, open, records).sessions, records)
  {
    if open != [] {
      var n := |open| - 1;
      ReopenAllReceives(h, open[..n], records);
      RestoredReceives(open[n].session, records);
      assert KnowsReceived(Reopen(open[n], records), open[n].session, records);
    }
  }

  lemma RestartReceives(h: Host, open: seq<Reopened>)
    requires Invariant(h) && h.config.persistent
    ensures Received(Resume(h.config, h.store, open))
  {
    StoreIsSane(h);
    ResumeHolds(h.config, h.store, open);
    LoadedHasNoSessions(h.config, h.store);
    ReopenAllReceives(Loaded(h.config, h.store), open, h.store);
    ResumedSessions(h.config, h.store, open);
  }

  // ---------------------------------------------------------------------------------------------------
  // Every run.

  lemma AttemptReceives(h: Host, op: Op)
    requires Invariant(h) && Received(h) && op.Attempt? && !TakesUnreceived(h, op)
    ensures Received(Step(h, op))
  {
    if !op.late {
      SettleReceives(h, op.env.read);
      ChainKnownKeeps(h, op.env.read);
      DecideAttemptReceives(ChainKnown(h, op.env.read).0, op.event, op.expected, op.env);
    }
  }

  lemma OutcomeReceives(h: Host, op: Op)
    requires Invariant(h) && Received(h) && op.Outcome? && !TakesUnreceived(h, op)
    ensures Received(Step(h, op))
  {
    if op.item.Some? {
      SettleReceives(h, op.env.read);
      ChainKnownKeeps(h, op.env.read);
      DecideOutcomeReceives(ChainKnown(h, op.env.read).0, op.item.value, op.expected, op.env);
    }
  }

  lemma StepReceives(h: Host, op: Op)
    requires Invariant(h) && Received(h) && !TakesUnreceived(h, op)
    ensures Received(Step(h, op))
  {
    match op
    case Attempt(_, _, _, _) => AttemptReceives(h, op);
    case Outcome(_, _, _) => OutcomeReceives(h, op);
    case Open(_) =>
    case Close(_) =>
    case SetAvailable(_) =>
    case Restart(open) =>
      if h.config.persistent {
        RestartReceives(h, open);
      }
  }

  lemma NeverUnreceivedFront(config: Config, ops: seq<Op>, n: nat)
    requires NeverUnreceived(config, ops) && n <= |ops|
    ensures NeverUnreceived(config, ops[..n])
  {
    assert forall i :: 0 <= i < n ==> ops[..n][..i] == ops[..i];
  }

  /** Every number sealed in an open session was received there. */
  lemma {:induction false} RunReceives(config: Config, ops: seq<Op>)
    requires NeverUnreceived(config, ops)
    ensures Received(Run(Initial(config), ops))
  {
    if ops != [] {
      var n := |ops| - 1;
      NeverUnreceivedFront(config, ops, n);
      RunReceives(config, ops[..n]);
      RunKeeps(config, ops[..n]);
      StepReceives(Run(Initial(config), ops[..n]), ops[n]);
    }
  }
}
