/**
 * When the store gets ahead of the chain with nobody in doubt: exactly when an append throws something other than
 * the repository's own error after its record landed.
 */
module Unnoticed {
  import opened Records
  import opened Ledgers
  import opened Storage
  import opened Hosts
  import opened Chains
  import opened HostInvariants
  import opened HostTidiness
  import opened Persistence
  import opened Sections

  /** While the store is ahead of the chain, the host knows the tail is in doubt. */
  predicate DoubtIsKnown(h: Host) {
    h.config.persistent && h.store != h.chain ==> h.tailUncertain
  }

  /** The call gets as far as the append: each branch that ends it before is passed. */
  predicate ReachesAppend(h: Host, op: Op) {
    && Carries(op) && !(op.Attempt? && op.late)
    && var (settled, known) := ChainKnown(h, EnvOf(op).read);
    && known.Known?
    && var (admitted, refused) := Admit(settled, EventOf(op), op.expected, op.Attempt?);
    && refused.None?
    && var (verified, checked) := VerifySignature(admitted, EventOf(op), EnvOf(op).verdict);
    && checked.Passed? && InSession(verified, op) && WouldSeal(verified, op)
    && Prepared(verified, EventOf(op), EnvOf(op)).Some?
  }

  /** The guard: the call reaches the append, and that throws although the record landed. */
  predicate LandsUnnoticed(h: Host, op: Op) {
    h.config.persistent && ReachesAppend(h, op) && EnvOf(op).write.ThrewLanded?
  }

  /** A record made for the place after the chain fits the store exactly where the two agree. */
  lemma NextPlace(h: Host)
    requires Invariant(h) && h.config.persistent
    ensures h.store == h.chain ==> NextPosition(h.store) == |h.chain|
    ensures h.store != h.chain ==> NextPosition(h.store) == |h.chain| + 1
  {
    TailTells(h);
  }

  lemma PersistUnnoticed(h: Host, r: Record, write: Write)
    requires h.config.persistent && r.position == |h.chain| && DoubtIsKnown(h)
    requires h.store == h.chain ==> NextPosition(h.store) == |h.chain|
    requires h.store != h.chain ==> NextPosition(h.store) == |h.chain| + 1
    ensures DoubtIsKnown(Persist(h, r, write).0) <==> !(!h.tailUncertain && write.ThrewLanded?)
  {
  }

  lemma SealingUnnoticed(h: Host, e: Event, env: Env)
    requires Invariant(h) && DoubtIsKnown(h)
    ensures DoubtIsKnown(SealEvent(h, e, env).0) <==>
              !(h.config.persistent && !h.tailUncertain && env.write.ThrewLanded? && Prepared(h, e, env).Some?)
  {
    if h.config.persistent && Prepared(h, e, env).Some? {
      NextPlace(h);
      PersistUnnoticed(h, Prepared(h, e, env).value, env.write);
    }
  }

  /** Recording leaves the ledger as sealing does, where the event gets that far, and untouched where it does not. */
  lemma DecisionComesTo(h: Host, op: Op)
    requires InSession(h, op)
    ensures WouldSeal(h, op) ==> SameLedger(SealEvent(h, EventOf(op), EnvOf(op)).0, SealWhole(h, op).0)
    ensures !WouldSeal(h, op) ==> SameLedger(h, SealWhole(h, op).0)
  {
    if WouldSeal(h, op) {
      SealsWhenItWould(h, op);
    } else if op.Attempt? {
      UnsealedAttempt(h, op.event, op.env);
    } else {
      UnsealedOutcome(h, op.item.value, op.env);
    }
  }

  lemma UnsealedAttempt(h: Host, e: Event, env: Env)
    requires e.session in h.sessions
    requires !(h.available && e.id !in h.sessions[e.session].terminal && !Replayed(h, e) && e.id !in h.sealedAttempts)
    ensures SameLedger(h, SealAttempt(h, e, env).0)
  {
  }

  lemma UnsealedOutcome(h: Host, e: Event, env: Env)
    requires e.session in h.sessions
    requires var s := h.sessions[e.session];
             !(h.available && e.id !in s.terminal && !Replayed(h, e) && e !in h.sealedEvents
               && (e.id in s.accepted || e.outcome.Aborted?))
    ensures SameLedger(h, SealOutcome(h, e, env).0)
  {
  }

  lemma SameDoubt(h: Host, g: Host)
    requires SameLedger(h, g)
    ensures DoubtIsKnown(h) <==> DoubtIsKnown(g)
  {
  }

  /** From the checks after the signature on. */
  lemma DecisionUnnoticed(h: Host, op: Op)
    requires Invariant(h) && DoubtIsKnown(h) && InSession(h, op) && TailSettled(h)
    ensures DoubtIsKnown(SealWhole(h, op).0) <==>
              !(h.config.persistent && WouldSeal(h, op) && Prepared(h, EventOf(op), EnvOf(op)).Some?
                && EnvOf(op).write.ThrewLanded?)
  {
    DecisionComesTo(h, op);
    SealingUnnoticed(h, EventOf(op), EnvOf(op));
  }

  predicate TailSettled(h: Host) {
    h.config.persistent ==> !h.tailUncertain
  }

  lemma AdmittedUnnoticed(h: Host, op: Op)
    requires Invariant(h) && DoubtIsKnown(h) && InSession(h, op) && TailSettled(h)
    ensures var (verified, checked) := VerifySignature(h, EventOf(op), EnvOf(op).verdict);
            DoubtIsKnown(Admitted(h, op).0) <==>
              !(h.config.persistent && checked.Passed? && InSession(verified, op) && WouldSeal(verified, op)
                && Prepared(verified, EventOf(op), EnvOf(op)).Some? && EnvOf(op).write.ThrewLanded?)
  {
    var (verified, checked) := VerifySignature(h, EventOf(op), EnvOf(op).verdict);
    VerifyIsQuiet(h, EventOf(op), EnvOf(op).verdict);
    VerifyKeeps(h, EventOf(op), EnvOf(op).verdict);
    SameDoubt(h, verified);
    VerifiedLeaves(h, op);
    if checked.Passed? {
      DecisionUnnoticed(verified, op);
      AdmittedIsSealed(h, op);
    } else {
      SameDoubt(h, Admitted(h, op).0);
    }
  }

  lemma AdmittedIsSealed(h: Host, op: Op)
    requires InSession(h, op) && VerifySignature(h, EventOf(op), EnvOf(op).verdict).1.Passed?
    ensures var verified := VerifySignature(h, EventOf(op), EnvOf(op).verdict).0;
            InSession(verified, op) && Admitted(h, op) == SealWhole(verified, op)
  {
  }

  lemma DecidedUnnoticed(h: Host, op: Op)
    requires Invariant(h) && DoubtIsKnown(h) && Carries(op) && TailSettled(h)
    ensures var (admitted, refused) := Admit(h, EventOf(op), op.expected, op.Attempt?);
            var (verified, checked) := if refused.None? then VerifySignature(admitted, EventOf(op), EnvOf(op).verdict) else (h, CheckThrew);
            DoubtIsKnown(Sections.Decided(h, op).0) <==>
              !(h.config.persistent && refused.None? && checked.Passed? && InSession(verified, op) && WouldSeal(verified, op)
                && Prepared(verified, EventOf(op), EnvOf(op)).Some? && EnvOf(op).write.ThrewLanded?)
  {
    var (admitted, refused) := Admit(h, EventOf(op), op.expected, op.Attempt?);
    if refused.None? {
      AdmittedUnnoticed(h, op);
    } else {
      SameDoubt(h, admitted);
    }
  }

  /** A settled tail is known, and doubt is as known as before. */
  lemma SettlingKnowsDoubt(h: Host, read: Read)
    requires Invariant(h) && DoubtIsKnown(h)
    ensures var (settled, known) := ChainKnown(h, read);
            Invariant(settled) && DoubtIsKnown(settled) && settled.config == h.config && (known.Known? ==> TailSettled(settled))
  {
    ChainKnownKeeps(h, read);
    SettleShape(h, read);
    KnownIsSettled(h, read);
  }

  lemma KnownIsSettled(h: Host, read: Read)
    ensures var (settled, known) := ChainKnown(h, read); known.Known? ==> TailSettled(settled)
  {
  }

  lemma HandledIs(h: Host, op: Op)
    requires Carries(op) && !(op.Attempt? && op.late)
    ensures var (settled, known) := ChainKnown(h, EnvOf(op).read);
            Step(h, op) == if known.Known? then Sections.Decided(settled, op).0 else settled
  {
  }

  lemma CallUnnoticed(h: Host, op: Op)
    requires Invariant(h) && DoubtIsKnown(h) && Carries(op)
    ensures DoubtIsKnown(Step(h, op)) <==> !LandsUnnoticed(h, op)
  {
    if !(op.Attempt? && op.late) {
      SettlingKnowsDoubt(h, EnvOf(op).read);
      HandledIs(h, op);
      if ChainKnown(h, EnvOf(op).read).1.Known? {
        DecidedUnnoticed(ChainKnown(h, EnvOf(op).read).0, op);
      }
    }
  }

  lemma OtherStepUnnoticed(h: Host, op: Op)
    requires Invariant(h) && DoubtIsKnown(h) && !Carries(op)
    ensures DoubtIsKnown(Step(h, op)) && !LandsUnnoticed(h, op)
  {
    match op
    case Attempt(_, _, _, _) =>
    case Outcome(_, _, _) =>
    case Open(_) =>
    case Close(_) =>
    case SetAvailable(_) =>
    case Restart(open) =>
      if h.config.persistent {
        StoreIsSane(h);
        ResumeHolds(h.config, h.store, open);
      }
  }

  /**
   * One call of any kind: where what is in doubt was known, it still is unless the guard holds. So a repository that
   * throws nothing but its own error is enough, and the guard says what else is.
   */
  lemma StepLandsUnnoticed(h: Host, op: Op)
    requires Invariant(h) && DoubtIsKnown(h)
    ensures DoubtIsKnown(Step(h, op)) <==> !LandsUnnoticed(h, op)
  {
    if Carries(op) {
      CallUnnoticed(h, op);
    } else {
      OtherStepUnnoticed(h, op);
    }
  }

  /**
   * Over a whole run: at every moment the store is ahead only while the tail is in doubt, if and only if no call of
   * the run has its append throw after the record landed.
   */
  lemma DoubtIsKnownThroughout(config: Config, ops: seq<Op>)
    ensures (forall n :: 0 <= n <= |ops| ==> DoubtIsKnown(Run(Initial(config), ops[..n]))) <==>
              (forall i :: 0 <= i < |ops| ==> !LandsUnnoticed(Run(Initial(config), ops[..i]), ops[i]))
  {
    if forall n :: 0 <= n <= |ops| ==> DoubtIsKnown(Run(Initial(config), ops[..n])) {
      forall i | 0 <= i < |ops|
        ensures !LandsUnnoticed(Run(Initial(config), ops[..i]), ops[i])
      {
        RunKeeps(config, ops[..i]);
        RunMoves(config, ops, i);
        StepLandsUnnoticed(Run(Initial(config), ops[..i]), ops[i]);
      }
    }
    if forall i :: 0 <= i < |ops| ==> !LandsUnnoticed(Run(Initial(config), ops[..i]), ops[i]) {
      forall n: nat | n <= |ops|
        ensures DoubtIsKnown(Run(Initial(config), ops[..n]))
      {
        KnownUpTo(config, ops, n);
      }
    }
  }

  lemma {:induction false} KnownUpTo(config: Config, ops: seq<Op>, n: nat)
    requires n <= |ops|
    requires forall i :: 0 <= i < |ops| ==> !LandsUnnoticed(Run(Initial(config), ops[..i]), ops[i])
    ensures DoubtIsKnown(Run(Initial(config), ops[..n]))
  {
    if n > 0 {
      KnownUpTo(config, ops, n - 1);
      RunKeeps(config, ops[..n - 1]);
      RunMoves(config, ops, n - 1);
      StepLandsUnnoticed(Run(Initial(config), ops[..n - 1]), ops[n - 1]);
    }
  }

  /** An append that throws something other than the repository's own error has not landed. */
  predicate KeepsContract(op: Op) {
    Carries(op) ==> !EnvOf(op).write.ThrewLanded?
  }

  /** So with a repository that keeps its contract the store is ahead only while the tail is in doubt. */
  lemma AheadOnlyInDoubt(config: Config, ops: seq<Op>)
    requires forall i :: 0 <= i < |ops| ==> KeepsContract(ops[i])
    ensures DoubtIsKnown(Run(Initial(config), ops))
  {
    KnownUpTo(config, ops, |ops|);
    assert ops[..|ops|] == ops;
  }

  // ---------------------------------------------------------------------------------------------------
  // A run that gets there.

  const STORED_L1 := Config(L1, true, None, 0)
  const THROWN := Env(Answered, Verifies, 0, None, ThrewLanded)
  const PLAIN_ATTEMPT := Event(1, 7, Attempted, None, None, true, true, 0)

  /** A session is opened and an attempt sent; its append throws after the record landed. */
  const UNNOTICED_RUN: seq<Op> := [Open(7), Attempt(PLAIN_ATTEMPT, None, false, THROWN)]

  lemma ThrownAppendIsUnnoticed()
    ensures var h := Run(Initial(STORED_L1), UNNOTICED_RUN);
            h.chain == [] && |h.store| == 1 && h.store[0].event == PLAIN_ATTEMPT && !h.tailUncertain
  {
    var h1 := Step(Initial(STORED_L1), Open(7));
    assert UNNOTICED_RUN[..2] == UNNOTICED_RUN && UNNOTICED_RUN[..1][..0] == [] && UNNOTICED_RUN[..1][0] == Open(7);
    RunMoves(STORED_L1, UNNOTICED_RUN, 0);
    RunMoves(STORED_L1, UNNOTICED_RUN, 1);
    assert Run(Initial(STORED_L1), UNNOTICED_RUN[..0]) == Initial(STORED_L1);
    ThrownStep(h1);
  }

  lemma ThrownStep(h: Host)
    requires h == Step(Initial(STORED_L1), Open(7))
    ensures var h' := Step(h, UNNOTICED_RUN[1]);
            h'.chain == [] && |h'.store| == 1 && h'.store[0].event == PLAIN_ATTEMPT && !h'.tailUncertain
  {
  }
}
