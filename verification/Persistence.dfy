/**
 * Ambiguous persistence, over every run: a failing append may or may not have landed, and still the store never
 * holds two records at one place, never loses one, and every `accept` names a record that stays where it is.
 */
module Persistence {
  import opened Records
  import opened Ledgers
  import opened Storage
  import opened Hosts
  import opened Chains
  import opened HostInvariants
  import opened HostTidiness

  /** A record carries a countersignature exactly when the host is one that countersigns, and then under its names. */
  predicate Made(config: Config, r: Record) {
    if config.countersigner.None? then r.triple.Absent?
    else r.triple.Full? && r.triple.keyId == config.countersigner.value && r.triple.logId == config.logId
  }

  // ---------------------------------------------------------------------------------------------------
  // What the calls do to the ledger: settle, and then at most seal.

  /** The parts of a state that say what is sealed. */
  predicate SameLedger(h: Host, h': Host) {
    h'.config == h.config && h'.chain == h.chain && h'.store == h.store && h'.tailUncertain == h.tailUncertain
  }

  /** The call did nothing to the ledger, or what sealing the event does. */
  predicate SealsAtMost(h: Host, h': Host, e: Event, env: Env) {
    SameLedger(h, h') || SameLedger(SealEvent(h, e, env).0, h')
  }

  lemma PersistDependsOnLedger(h: Host, g: Host, r: Record, write: Write)
    requires SameLedger(h, g)
    ensures SameLedger(Persist(h, r, write).0, Persist(g, r, write).0)
  {
    if !h.config.persistent {
      assert SameLedger(Commit(h, r), Commit(g, r));
    } else if r.position == NextPosition(h.store) && write.Stored? {
      assert SameLedger(Commit(h.(store := h.store + [r]), r), Commit(g.(store := g.store + [r]), r));
    }
  }

  lemma SealDependsOnLedger(h: Host, g: Host, e: Event, env: Env)
    requires SameLedger(h, g)
    ensures SameLedger(SealEvent(h, e, env).0, SealEvent(g, e, env).0)
  {
    if Prepared(h, e, env).Some? {
      PersistDependsOnLedger(h, g, Prepared(h, e, env).value, env.write);
    }
  }

  lemma VerifyIsQuiet(h: Host, e: Event, verdict: Verdict)
    requires e.session in h.sessions
    ensures SameLedger(h, VerifySignature(h, e, verdict).0)
  {
  }

  lemma ClearIsQuiet(h: Host, e: Event)
    ensures SameLedger(h, Clear(h, e))
  {
  }

  lemma RecordAttemptSeals(h: Host, e: Event, env: Env)
    requires e.session in h.sessions
    ensures SealsAtMost(h, RecordAttempt(h, e, env).0, e, env)
  {
    var g := SealEvent(h, e, env).0;
    DecideIsQuiet(g, e);
    ClearIsQuiet(Decide(g, e), e);
  }

  lemma SealAttemptSeals(h: Host, e: Event, env: Env)
    requires e.session in h.sessions
    ensures SealsAtMost(h, SealAttempt(h, e, env).0, e, env)
  {
    RecordAttemptSeals(h, e, env);
    DecideIsQuiet(h, e);
  }

  lemma ConcludeIsQuiet(h: Host, e: Event)
    requires e.session in h.sessions
    ensures SameLedger(h, Conclude(h, e))
  {
  }

  lemma RecordOutcomeSeals(h: Host, e: Event, env: Env)
    requires e.session in h.sessions
    ensures SealsAtMost(h, RecordOutcome(h, e, env).0, e, env)
  {
    var g := SealEvent(h, e, env).0;
    DecideIsQuiet(g, e);
    ConcludeIsQuiet(Decide(g, e), e);
  }

  lemma SealOutcomeSeals(h: Host, e: Event, env: Env)
    requires e.session in h.sessions
    ensures SealsAtMost(h, SealOutcome(h, e, env).0, e, env)
  {
    RecordOutcomeSeals(h, e, env);
    DecideIsQuiet(h, e);
  }

  lemma DecideIsQuiet(h: Host, e: Event)
    requires e.session in h.sessions
    ensures SameLedger(h, Decide(h, e))
  {
  }

  lemma AdmittedAttemptSeals(h: Host, e: Event, env: Env)
    requires e.session in h.sessions
    ensures SealsAtMost(h, AdmittedAttempt(h, e, env).0, e, env)
  {
    VerifyIsQuiet(h, e, env.verdict);
    var verified := VerifySignature(h, e, env.verdict).0;
    SealAttemptSeals(verified, e, env);
    SealDependsOnLedger(h, verified, e, env);
  }

  lemma AdmittedOutcomeSeals(h: Host, e: Event, env: Env)
    requires e.session in h.sessions
    ensures SealsAtMost(h, AdmittedOutcome(h, e, env).0, e, env)
  {
    VerifyIsQuiet(h, e, env.verdict);
    var verified := VerifySignature(h, e, env.verdict).0;
    SealOutcomeSeals(verified, e, env);
    SealDependsOnLedger(h, verified, e, env);
  }

  lemma DecideAttemptSeals(h: Host, e: Event, expected: Option<SessionId>, env: Env)
    ensures SealsAtMost(h, DecideAttempt(h, e, expected, env).0, e, env)
  {
    if e.session in h.sessions {
      AdmittedAttemptSeals(h, e, env);
    }
  }

  lemma DecideOutcomeSeals(h: Host, e: Event, expected: Option<SessionId>, env: Env)
    ensures SealsAtMost(h, DecideOutcome(h, e, expected, env).0, e, env)
  {
    if e.session in h.sessions {
      AdmittedOutcomeSeals(h, e, env);
    }
  }

  lemma AdoptShape(h: Host, r: Record)
    ensures SameLedger(h.(chain := h.chain + [r]), Adopt(h, r))
  {
  }

  /** Settling commits what the store already has, or changes nothing but the doubt. */
  lemma SettleShape(h: Host, read: Read)
    requires Invariant(h)
    ensures var h' := ChainKnown(h, read).0;
            && h'.config == h.config && h'.store == h.store && h.chain <= h'.chain
            && (h'.chain == h.chain || (h.config.persistent && h'.chain == h.store))
            && (h'.tailUncertain == h.tailUncertain || h'.chain == h.store)
  {
    if h.config.persistent && h.tailUncertain {
      TailTells(h);
      if h.store != h.chain {
        var r :| h.store == h.chain + [r] && Continues(h.chain, r);
        assert h.store[|h.store| - 1] == r;
        AdoptShape(h, r);
      }
    }
  }

  // ---------------------------------------------------------------------------------------------------
  // Nothing is lost.

  /** What a call can add to everything there is: nothing, or one record of an event sent, at the end. */
  ghost predicate Adds(h: Host, h': Host, sent: set<Event>) {
    && h'.config == h.config
    && h.chain <= h'.chain
    && (Whole(h') == Whole(h) || exists r :: Made(h.config, r) && r.event in sent && Whole(h') == Whole(h) + [r])
  }

  function SentBy(op: Op): set<Event> {
    match op
    case Attempt(e, _, _, _) => {e}
    case Outcome(item, _, _) => if item.Some? then {item.value} else {}
    case _ => {}
  }

  function Sent(ops: seq<Op>): set<Event> {
    if ops == [] then {} else Sent(ops[..|ops| - 1]) + SentBy(ops[|ops| - 1])
  }

  lemma PersistAdds(h: Host, r: Record, write: Write)
    requires Invariant(h) && r.position == |h.chain| && Made(h.config, r)
    ensures Adds(h, Persist(h, r, write).0, {r.event})
  {
    PersistShape(h, r, write);
    if h.config.persistent {
      TailTells(h);
    }
  }

  lemma SealAdds(h: Host, e: Event, env: Env)
    requires Invariant(h)
    ensures Adds(h, SealEvent(h, e, env).0, {e})
  {
    if Prepared(h, e, env).Some? {
      PersistAdds(h, Prepared(h, e, env).value, env.write);
    }
  }

  /** A call: settle the tail, then seal at most one record on what that leaves. */
  lemma CallAdds(h: Host, read: Read, h': Host, e: Event, env: Env)
    requires Invariant(h) && SealsAtMost(ChainKnown(h, read).0, h', e, env)
    ensures Adds(h, h', {e})
  {
    var settled := ChainKnown(h, read).0;
    SettleShape(h, read);
    ChainKnownKeeps(h, read);
    SealAdds(settled, e, env);
    if SameLedger(settled, h') {
      AddsThen(h, settled, settled, h', e);
    } else {
      AddsThen(h, settled, SealEvent(settled, e, env).0, h', e);
    }
  }

  lemma AddsThen(h: Host, settled: Host, sealed: Host, h': Host, e: Event)
    requires settled.config == h.config && h.chain <= settled.chain && Whole(settled) == Whole(h)
    requires Adds(settled, sealed, {e}) && SameLedger(sealed, h')
    ensures Adds(h, h', {e})
  {
    assert Whole(h') == Whole(sealed);
    if Whole(sealed) != Whole(settled) {
      var r :| Made(settled.config, r) && r.event in {e} && Whole(sealed) == Whole(settled) + [r];
      assert Made(h.config, r) && r.event in {e} && Whole(h') == Whole(h) + [r];
    }
  }

  lemma AttemptAdds(h: Host, e: Event, expected: Option<SessionId>, late: bool, env: Env)
    requires Invariant(h)
    ensures Adds(h, HandleAttempt(h, e, expected, late, env).0, {e})
  {
    if !late {
      DecideAttemptSeals(ChainKnown(h, env.read).0, e, expected, env);
      CallAdds(h, env.read, HandleAttempt(h, e, expected, late, env).0, e, env);
    }
  }

  lemma OutcomeAdds(h: Host, item: Option<Event>, expected: Option<SessionId>, env: Env)
    requires Invariant(h)
    ensures Adds(h, HandleOutcome(h, item, expected, env).0, SentBy(Outcome(item, expected, env)))
  {
    if item.Some? {
      OutcomeSealsAtMost(h, item.value, expected, env);
      CallAdds(h, env.read, HandleOutcome(h, item, expected, env).0, item.value, env);
    }
  }

  lemma OutcomeSealsAtMost(h: Host, e: Event, expected: Option<SessionId>, env: Env)
    ensures SealsAtMost(ChainKnown(h, env.read).0, HandleOutcome(h, Some(e), expected, env).0, e, env)
  {
    DecideOutcomeSeals(ChainKnown(h, env.read).0, e, expected, env);
  }

  lemma StepAdds(h: Host, op: Op)
    requires Invariant(h)
    ensures Adds(h, Step(h, op), SentBy(op))
  {
    match op
    case Attempt(e, expected, late, env) => AttemptAdds(h, e, expected, late, env);
    case Outcome(item, expected, env) => OutcomeAdds(h, item, expected, env);
    case Open(id) =>
    case Close(id) =>
    case SetAvailable(available) =>
    case Restart(open) =>
      if h.config.persistent {
        RestartAdds(h, open);
      }
  }

  lemma RestartAdds(h: Host, open: seq<Reopened>)
    requires Invariant(h) && h.config.persistent
    ensures Adds(h, Resume(h.config, h.store, open), {})
  {
    StoreIsSane(h);
    ResumeHolds(h.config, h.store, open);
    ResumedConfig(h.config, h.store, open);
  }

  lemma ResumedConfig(config: Config, store: seq<Record>, open: seq<Reopened>)
    requires config.persistent && Sane(store)
    ensures Resume(config, store, open).config == config
  {
    LoadedHasNoSessions(config, store);
    ReopenAllKeepsConfig(Loaded(config, store), open, store);
    ResumedSessions(config, store, open);
  }

  lemma RunMoves(config: Config, ops: seq<Op>, n: nat)
    requires n < |ops|
    ensures Run(Initial(config), ops[..n + 1]) == Step(Run(Initial(config), ops[..n]), ops[n])
  {
    assert ops[..n + 1][..n] == ops[..n];
  }

  /** History is kept: nothing sealed, and nothing that landed, is lost or moved by any later call. */
  lemma {:induction false} HistoryGrows(config: Config, ops: seq<Op>, n: nat)
    requires n <= |ops|
    ensures Run(Initial(config), ops[..n]).chain <= Run(Initial(config), ops).chain
    ensures Whole(Run(Initial(config), ops[..n])) <= Whole(Run(Initial(config), ops))
    decreases |ops| - n
  {
    if n < |ops| {
      HistoryGrows(config, ops, n + 1);
      RunMoves(config, ops, n);
      RunKeeps(config, ops[..n]);
      StepAdds(Run(Initial(config), ops[..n]), ops[n]);
    } else {
      assert ops[..n] == ops;
    }
  }

  /**
   * Whatever each append did, the store is the committed chain, or that and one sealed successor; every record
   * is at its own place, so no two share one, and each links to the one before it.
   */
  lemma StoreIsChainOrOneAhead(config: Config, ops: seq<Op>)
    requires config.persistent
    ensures var h := Run(Initial(config), ops);
            && h.chain <= h.store && |h.store| <= |h.chain| + 1
            && Linked(h.store) && Placed(h.store)
  {
    RunKeeps(config, ops);
    RunKeepsConfig(config, ops);
    var h := Run(Initial(config), ops);
    StoreIsSane(h);
    LinkedIsPlaced(h.store);
  }

  lemma {:induction false} RunKeepsConfig(config: Config, ops: seq<Op>)
    ensures Run(Initial(config), ops).config == config
  {
    if ops != [] {
      var n := |ops| - 1;
      RunKeepsConfig(config, ops[..n]);
      RunKeeps(config, ops[..n]);
      StepAdds(Run(Initial(config), ops[..n]), ops[n]);
    }
  }

  /** Every record there is was made by this host, of an event some call of the run brought. */
  lemma {:induction false} RecordsAreMade(config: Config, ops: seq<Op>)
    ensures forall r :: r in Whole(Run(Initial(config), ops)) ==> Made(config, r) && r.event in Sent(ops)
  {
    if ops != [] {
      var n := |ops| - 1;
      RecordsAreMade(config, ops[..n]);
      RunKeeps(config, ops[..n]);
      RunKeepsConfig(config, ops[..n]);
      StepAdds(Run(Initial(config), ops[..n]), ops[n]);
    }
  }

  // ---------------------------------------------------------------------------------------------------
  // What an accept is worth.

  /** The response to an attempt names a record of the list, which seals exactly the bytes that were sent. */
  ghost predicate Names(response: Response, records: seq<Record>, e: Event) {
    && response.Accept?
    && 0 <= response.position < |records|
    && AcceptOf(records[response.position]) == response
    && records[response.position].event == e
  }

  lemma RecordIsNamed(records: seq<Record>, r: Record)
    requires Linked(records) && r in records
    ensures Names(AcceptOf(r), records, r.event)
  {
    LinkedIsPlaced(records);
  }

  lemma RecordAttemptNames(h: Host, e: Event, env: Env)
    requires Invariant(h) && e.session in h.sessions && CanFollow(h.chain, e)
    ensures var (h', response) := RecordAttempt(h, e, env); response.Accept? ==> Names(response, h'.chain, e)
  {
    SealKeeps(h, e, env);
    var (h', seal) := SealEvent(h, e, env);
    if seal.SealedAs? {
      assert h'.chain[|h.chain|] == seal.record;
      RecordIsNamed(h'.chain, seal.record);
    }
  }

  lemma SealAttemptNames(h: Host, e: Event, env: Env)
    requires Invariant(h) && e.session in h.sessions && Valid(e) && e.canonicalizable && e.outcome.Attempted?
    ensures var (h', response) := SealAttempt(h, e, env); response.Accept? ==> Names(response, h'.chain, e)
  {
    if e.id in h.sealedAttempts {
      if h.sealedAttempts[e.id].event == e {
        RecordIsNamed(h.chain, h.sealedAttempts[e.id]);
      }
    } else {
      RecordAttemptNames(h, e, env);
    }
  }

  lemma AcceptNames(h: Host, e: Event, expected: Option<SessionId>, late: bool, env: Env)
    requires Invariant(h)
    ensures var (h', response) := HandleAttempt(h, e, expected, late, env);
            response.Accept? ==> Names(response, h'.chain, e)
  {
    var settled := ChainKnown(h, env.read).0;
    ChainKnownKeeps(h, env.read);
    if !late && ChainKnown(h, env.read).1.Known? && Admit(settled, e, expected, true).1.None? {
      VerifyKeeps(settled, e, env.verdict);
      SealAttemptNames(VerifySignature(settled, e, env.verdict).0, e, env);
    }
  }

  /**
   * Every `accept` names a record that is in the chain, and in the store where there is one, at that place for
   * the rest of the run, with those hashes, sealing exactly the attempt that was accepted.
   */
  lemma AcceptedForGood(config: Config, ops: seq<Op>, k: nat)
    requires k < |ops| && ops[k].Attempt?
    ensures var op := ops[k];
            var response := HandleAttempt(Run(Initial(config), ops[..k]), op.event, op.expected, op.late, op.env).1;
            var h := Run(Initial(config), ops);
            response.Accept? ==> Names(response, h.chain, op.event) && Names(response, Whole(h), op.event)
  {
    var op := ops[k];
    RunKeeps(config, ops[..k]);
    RunKeeps(config, ops);
    AcceptNames(Run(Initial(config), ops[..k]), op.event, op.expected, op.late, op.env);
    RunMoves(config, ops, k);
    HistoryGrows(config, ops, k + 1);
    assert Run(Initial(config), ops).chain <= Whole(Run(Initial(config), ops));
  }

}
