/**
 * An auditor with registries of its own, where those agree with the host's: with its verifier on the events it let
 * pass, and with its countersigner on what that signed. Then they bear out every record of the run.
 */
module Vouching {
  import opened Records
  import opened Ledgers
  import opened Verify
  import opened Tampering
  import opened Hosts
  import opened Chains
  import opened HostInvariants
  import opened HostTidiness
  import opened Persistence
  import opened HonestLedgers
  import opened Sections

  /** The record a call would seal, if it came to that. */
  ghost function Prospect(h: Host, op: Op): Option<Record> {
    if !Carries(op) then None else Prepared(ChainKnown(h, EnvOf(op).read).0, EventOf(op), EnvOf(op))
  }

  /** The host's own verifier, where it is asked, let the event pass. */
  predicate LetPass(config: Config, op: Op)
    requires Carries(op)
  {
    config.level.L2? ==> EnvOf(op).verdict.Verifies?
  }

  /** The auditor bears out the signature of an event that passed, and the countersignature the record was given. */
  ghost predicate BearsOut(o: Options, config: Config, op: Op, r: Record)
    requires Carries(op)
  {
    LetPass(config, op) ==> !BadSignature(r, o) && (r.triple.Full? ==> !BadCountersignature(r, true, o))
  }

  /** The auditor's registries agree with the host's collaborators on every record the run could have sealed. */
  ghost predicate Agrees(o: Options, config: Config, ops: seq<Op>) {
    && (o.countersignatureRequired ==> config.countersigner.Some?)
    && forall n :: 0 <= n < |ops| ==> AgreesOn(o, config, Run(Initial(config), ops[..n]), ops[n])
  }

  ghost predicate AgreesOn(o: Options, config: Config, h: Host, op: Op) {
    Prospect(h, op).Some? ==> BearsOut(o, config, op, Prospect(h, op).value)
  }

  /** What the call adds to everything there is: nothing, or the record it would seal, of an event that passed. */
  ghost predicate AddsOnly(h: Host, h': Host, op: Op) {
    || Whole(h') == Whole(h)
    || (Prospect(h, op).Some? && LetPass(h.config, op) && Whole(h') == Whole(h) + [Prospect(h, op).value])
  }

  lemma UnverifiedIsQuiet(h: Host, e: Event, verdict: Verdict)
    requires e.session in h.sessions && h.config.level.L2? && !verdict.Verifies?
    ensures !VerifySignature(h, e, verdict).1.Passed?
  {
  }

  /** A call whose event the host's verifier did not let pass seals nothing. */
  lemma UnverifiedSealsNothing(h: Host, op: Op)
    requires Carries(op) && !LetPass(h.config, op)
    ensures op.Attempt? ==> SameLedger(h, DecideAttempt(h, op.event, op.expected, op.env).0)
    ensures op.Outcome? ==> SameLedger(h, DecideOutcome(h, op.item.value, op.expected, op.env).0)
  {
    var e := EventOf(op);
    if e.session in h.sessions {
      VerifyIsQuiet(h, e, EnvOf(op).verdict);
      UnverifiedIsQuiet(h, e, EnvOf(op).verdict);
    }
  }

  lemma PersistAddsOnly(h: Host, r: Record, write: Write)
    requires Invariant(h) && r.position == |h.chain|
    ensures var h' := Persist(h, r, write).0; Whole(h') == Whole(h) || Whole(h') == Whole(h) + [r]
  {
    PersistShape(h, r, write);
    if h.config.persistent {
      TailTells(h);
    }
  }

  lemma SealAddsOnly(h: Host, e: Event, env: Env)
    requires Invariant(h)
    ensures var h' := SealEvent(h, e, env).0;
            Whole(h') == Whole(h) || (Prepared(h, e, env).Some? && Whole(h') == Whole(h) + [Prepared(h, e, env).value])
  {
    if Prepared(h, e, env).Some? {
      PersistAddsOnly(h, Prepared(h, e, env).value, env.write);
    }
  }

  /** What sealing does to a settled tail, or nothing where the event did not pass. */
  ghost predicate SealsIfPassed(config: Config, settled: Host, h': Host, op: Op)
    requires Carries(op)
  {
    if LetPass(config, op) then SealsAtMost(settled, h', EventOf(op), EnvOf(op)) else SameLedger(settled, h')
  }

  lemma SealsOnly(config: Config, settled: Host, h': Host, op: Op)
    requires Invariant(settled) && Carries(op) && SealsIfPassed(config, settled, h', op)
    ensures var r := Prepared(settled, EventOf(op), EnvOf(op));
            Whole(h') == Whole(settled) || (r.Some? && LetPass(config, op) && Whole(h') == Whole(settled) + [r.value])
  {
    SealAddsOnly(settled, EventOf(op), EnvOf(op));
  }

  /** A call: settle the tail, then seal at most what was prepared on what that leaves. */
  lemma CallAddsOnly(h: Host, h': Host, op: Op)
    requires Invariant(h) && Carries(op) && SealsIfPassed(h.config, ChainKnown(h, EnvOf(op).read).0, h', op)
    ensures AddsOnly(h, h', op)
  {
    var settled := ChainKnown(h, EnvOf(op).read).0;
    SettleShape(h, EnvOf(op).read);
    ChainKnownKeeps(h, EnvOf(op).read);
    SettledWhole(h, settled);
    SealsOnly(h.config, settled, h', op);
  }

  lemma SettledWhole(h: Host, settled: Host)
    requires settled.config == h.config && settled.store == h.store
    requires settled.chain == h.chain || (h.config.persistent && settled.chain == h.store)
    ensures Whole(settled) == Whole(h)
  {
  }

  lemma AttemptAddsOnly(h: Host, op: Op)
    requires Invariant(h) && op.Attempt?
    ensures AddsOnly(h, Step(h, op), op)
  {
    if !op.late {
      var settled := ChainKnown(h, op.env.read).0;
      SettleShape(h, op.env.read);
      DecidedAttemptSeals(h.config, settled, op);
      CallAddsOnly(h, Step(h, op), op);
    }
  }

  lemma DecidedAttemptSeals(config: Config, settled: Host, op: Op)
    requires op.Attempt? && settled.config == config
    ensures SealsIfPassed(config, settled, settled, op)
    ensures SealsIfPassed(config, settled, DecideAttempt(settled, op.event, op.expected, op.env).0, op)
  {
    DecideAttemptSeals(settled, op.event, op.expected, op.env);
    if !LetPass(config, op) {
      UnverifiedSealsNothing(settled, op);
    }
  }

  lemma DecidedOutcomeSeals(config: Config, settled: Host, op: Op)
    requires op.Outcome? && op.item.Some? && settled.config == config
    ensures SealsIfPassed(config, settled, settled, op)
    ensures SealsIfPassed(config, settled, DecideOutcome(settled, op.item.value, op.expected, op.env).0, op)
  {
    DecideOutcomeSeals(settled, op.item.value, op.expected, op.env);
    if !LetPass(config, op) {
      UnverifiedSealsNothing(settled, op);
    }
  }

  lemma OutcomeAddsOnly(h: Host, op: Op)
    requires Invariant(h) && op.Outcome?
    ensures AddsOnly(h, Step(h, op), op)
  {
    if op.item.Some? {
      var settled := ChainKnown(h, op.env.read).0;
      SettleShape(h, op.env.read);
      DecidedOutcomeSeals(h.config, settled, op);
      OutcomeIsDecided(h, op, settled);
      CallAddsOnly(h, Step(h, op), op);
    }
  }

  lemma OutcomeIsDecided(h: Host, op: Op, settled: Host)
    requires op.Outcome? && op.item.Some? && settled == ChainKnown(h, op.env.read).0
    ensures Step(h, op) == settled || Step(h, op) == DecideOutcome(settled, op.item.value, op.expected, op.env).0
  {
  }

  lemma StepAddsOnly(h: Host, op: Op)
    requires Invariant(h)
    ensures AddsOnly(h, Step(h, op), op)
  {
    if op.Attempt? {
      AttemptAddsOnly(h, op);
    } else if op.Outcome? {
      OutcomeAddsOnly(h, op);
    } else {
      assert SentBy(op) == {};
      StepAdds(h, op);
    }
  }

  /** A record the run sealed, of an event that passed and with what the countersigner made of it. */
  lemma SealedIsBorneOut(config: Config, op: Op, h: Host, r: Record, o: Options)
    requires Carries(op) && LetPass(config, op) && h.config == config && Prospect(h, op) == Some(r)
    requires AgreesOn(o, config, h, op) && (o.countersignatureRequired ==> config.countersigner.Some?)
    ensures !BadSignature(r, o) && !BadCountersignature(r, true, o)
  {
    PreparedIsMade(ChainKnown(h, EnvOf(op).read).0, EventOf(op), EnvOf(op));
    assert ChainKnown(h, EnvOf(op).read).0.config == config;
  }

  lemma PreparedIsMade(h: Host, e: Event, env: Env)
    ensures Prepared(h, e, env).Some? ==> Made(h.config, Prepared(h, e, env).value)
  {
  }

  /** Registries that agree with the host's collaborators bear out every record there is. */
  lemma {:induction false} AgreeingIsVouched(config: Config, ops: seq<Op>, o: Options)
    requires Agrees(o, config, ops)
    ensures Vouched(Whole(Run(Initial(config), ops)), o)
  {
    if ops != [] {
      var n := |ops| - 1;
      AgreesBefore(o, config, ops, n);
      AgreeingIsVouched(config, ops[..n], o);
      RunKeeps(config, ops[..n]);
      RunKeepsConfig(config, ops[..n]);
      var h := Run(Initial(config), ops[..n]);
      StepAddsOnly(h, ops[n]);
      assert AgreesOn(o, config, h, ops[n]);
      StaysVouched(config, h, ops[n], o);
    }
  }

  lemma AgreesBefore(o: Options, config: Config, ops: seq<Op>, n: nat)
    requires Agrees(o, config, ops) && n <= |ops|
    ensures Agrees(o, config, ops[..n])
  {
    assert forall i :: 0 <= i < n ==> ops[..n][..i] == ops[..i];
  }

  lemma StaysVouched(config: Config, h: Host, op: Op, o: Options)
    requires Vouched(Whole(h), o) && h.config == config && AddsOnly(h, Step(h, op), op) && AgreesOn(o, config, h, op)
    requires o.countersignatureRequired ==> config.countersigner.Some?
    ensures Vouched(Whole(Step(h, op)), o)
  {
    if Whole(Step(h, op)) != Whole(h) {
      SealedIsBorneOut(config, op, h, Prospect(h, op).value, o);
    }
  }

  /**
   * So an auditor with registries that agree finds in what any host stored nothing but numbers missing or sealed twice,
   * and none sealed twice at Level 2 where no record was adopted into an open session that forgets it; and the host's
   * digest is missed exactly where a record that landed is not adopted yet.
   */
  lemma AgreeingAuditorVerifies(config: Config, ops: seq<Op>, o: Options)
    requires Agrees(o, config, ops) && o.anchoredDigest == Some(TailHash(Run(Initial(config), ops).chain))
    ensures var h := Run(Initial(config), ops);
            && FindsOnly(LedgerIssues(Whole(h), o), {SignerSeqGap, ReplayDetected, DigestMismatch})
            && (Found(LedgerIssues(Whole(h), o), DigestMismatch) <==> Whole(h) != h.chain)
            && (config.level.L2? && NeverAdopts(config, ops) ==> !Found(LedgerIssues(Whole(h), o), ReplayDetected))
  {
    AgreeingIsVouched(config, ops, o);
    AnyHostVerifies(config, ops, o);
    if config.level.L2? && NeverAdopts(config, ops) {
      HonestHostVerifies(config, ops, o);
    }
  }
}
