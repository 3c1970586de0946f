/**
 * What an adopted record costs. Adopting a record into a session still open restores only that its attempt was
 * accepted, so the host goes on to seal what it would have refused: a number or a terminal record a second time.
 */
module Adoption {
  import opened Records
  import opened Ledgers
  import opened Ordering
  import opened Verify
  import opened Tampering
  import opened Hosts
  import opened Chains
  import opened HostInvariants
  import opened HostTidiness
  import opened Persistence
  import opened HonestLedgers

  /** A well-formed event a host in this state would take up, its signature verifying. */
  predicate Admissible(h: Host, e: Event, attempt: bool) {
    && Valid(e) && e.canonicalizable && e.outcome.Attempted? == attempt
    && e.session in h.sessions && (h.config.level.L2? ==> e.signer.Some?)
  }

  /** Collaborators that all do their part. */
  predicate Cooperates(env: Env) {
    env.read.Answered? && env.verdict.Verifies? && env.write.Stored? && env.signature.Some?
  }

  /** What a verifying signature leaves for the checks that follow it. */
  lemma VerifiedIsTheSame(h: Host, e: Event)
    requires e.session in h.sessions && (h.config.level.L2? ==> e.signer.Some?)
    ensures var (g, checked) := VerifySignature(h, e, Verifies);
            && checked.Passed? && SameLedger(h, g) && e.session in g.sessions
            && g.sessions[e.session] == h.sessions[e.session].(received := g.sessions[e.session].received)
            && g == h.(sessions := g.sessions, anomalies := g.anomalies)
  {
  }

  ghost predicate SealedNext(h: Host, h': Host, e: Event) {
    exists r :: h'.chain == h.chain + [r] && r.event == e
  }

  lemma SealsNext(h: Host, e: Event, env: Env)
    requires Cooperates(env) && (h.config.persistent ==> h.store == h.chain && Linked(h.chain))
    ensures var (h', seal) := SealEvent(h, e, env);
            seal.SealedAs? && h'.chain == h.chain + [seal.record] && seal.record.event == e
  {
    PersistsNext(h, Prepared(h, e, env).value, env.write);
  }

  lemma NewAttemptIsSealed(h: Host, e: Event, env: Env)
    requires Cooperates(env) && (h.config.persistent ==> h.store == h.chain && Linked(h.chain)) && h.available
    requires e.session in h.sessions
    requires e.id !in h.sealedAttempts && e.id !in h.sessions[e.session].terminal && !Replayed(h, e)
    ensures var (h', response) := SealAttempt(h, e, env); response.Accept? && SealedNext(h, h', e)
  {
    SealsNext(h, e, env);
    assert SealAttempt(h, e, env).0.chain == SealEvent(h, e, env).0.chain;
  }

  lemma NewOutcomeIsSealed(h: Host, e: Event, env: Env)
    requires Cooperates(env) && (h.config.persistent ==> h.store == h.chain && Linked(h.chain)) && h.available
    requires e.session in h.sessions && (e.outcome.Aborted? || e.id in h.sessions[e.session].accepted)
    requires e !in h.sealedEvents && e.id !in h.sessions[e.session].terminal && !Replayed(h, e)
    ensures var (h', disposition) := SealOutcome(h, e, env); disposition.Sealed? && SealedNext(h, h', e)
  {
    SealsNext(h, e, env);
    assert SealOutcome(h, e, env).0.chain == SealEvent(h, e, env).0.chain;
  }

  /** An attempt that nothing speaks against is sealed. */
  lemma FreshAttemptIsSealed(h: Host, e: Event, env: Env)
    requires Invariant(h) && (h.config.persistent ==> h.store == h.chain) && h.available
    requires Admissible(h, e, true) && Cooperates(env)
    requires e.id !in h.sealedAttempts && e.id !in h.sessions[e.session].terminal && !Replayed(h, e)
    ensures var (h', response) := DecideAttempt(h, e, None, env); response.Accept? && SealedNext(h, h', e)
  {
    VerifiedIsTheSame(h, e);
    NewAttemptIsSealed(VerifySignature(h, e, Verifies).0, e, env);
  }

  /** An outcome that nothing speaks against is sealed. */
  lemma FreshOutcomeIsSealed(h: Host, e: Event, env: Env)
    requires Invariant(h) && (h.config.persistent ==> h.store == h.chain) && h.available
    requires Admissible(h, e, false) && Cooperates(env)
    requires e !in h.sealedEvents && e.id !in h.sessions[e.session].terminal && !Replayed(h, e)
    requires e.outcome.Aborted? || e.id in h.sessions[e.session].accepted
    ensures var (h', disposition) := DecideOutcome(h, e, None, env); disposition.Sealed? && SealedNext(h, h', e)
  {
    VerifiedIsTheSame(h, e);
    NewOutcomeIsSealed(VerifySignature(h, e, Verifies).0, e, env);
  }

  lemma PersistsNext(h: Host, r: Record, write: Write)
    requires write.Stored? && r.position == |h.chain|
    requires h.config.persistent ==> h.store == h.chain && Linked(h.chain)
    ensures Persist(h, r, write).1 == SealedAs(r) && Persist(h, r, write).0.chain == h.chain + [r]
  {
    if h.config.persistent {
      LinkedIsPlaced(h.chain);
    }
  }

  /** Settling a tail in doubt that landed. */
  lemma SettleAdopts(h: Host, r: Record)
    requires Invariant(h) && h.config.persistent && h.tailUncertain && h.store == h.chain + [r]
    ensures Continues(h.chain, r)
    ensures ChainKnown(h, Answered) == (Adopt(h, r).(tailUncertain := false), Known)
    ensures Invariant(Adopt(h, r).(tailUncertain := false)) && Adopt(h, r).chain == h.store == Adopt(h, r).store
  {
    TailTells(h);
    LandedContinues(h, r);
    AdoptKeeps(h, r);
    DoubtKeeps(Adopt(h, r), false);
  }

  lemma LandedContinues(h: Host, r: Record)
    requires StoreAgrees(h) && h.config.persistent && h.store == h.chain + [r]
    ensures Continues(h.chain, r)
  {
    var x :| h.store == h.chain + [x] && Continues(h.chain, x);
    assert x == h.store[|h.chain|] == r;
  }

  /** A host about to adopt a signed attempt into its open session takes its number again. */
  lemma ForgottenNumberIsTakenAgain(h: Host, r: Record, e: Event, env: Env)
    requires Invariant(h) && h.config.persistent && h.config.level.L2? && h.tailUncertain && h.available
    requires h.store == h.chain + [r] && r.event.outcome.Attempted?
    requires SameNumber(r.event, e) && Admissible(h, e, true) && Cooperates(env)
    requires !Decided(h.sessions[e.session], e.signer.value)
    requires e.id !in h.sealedAttempts && e.id != r.event.id && e.id !in h.sessions[e.session].terminal
    ensures var (h', response) := HandleAttempt(h, e, None, false, env);
            response.Accept? && exists x :: h'.chain == h.store + [x] && x.event == e
  {
    SettleAdopts(h, r);
    FreshAttemptIsSealed(ChainKnown(h, Answered).0, e, env);
  }

  /**
   * A host about to adopt a signed attempt into its open session seals that number again: the next attempt under
   * it is accepted, and the auditor reports the replay.
   */
  lemma ForgottenNumberIsSealedAgain(h: Host, r: Record, e: Event, env: Env, o: Options)
    requires Invariant(h) && h.config.persistent && h.config.level.L2? && h.tailUncertain && h.available
    requires h.store == h.chain + [r] && r.event.outcome.Attempted?
    requires SameNumber(r.event, e) && Admissible(h, e, true) && Cooperates(env)
    requires !Decided(h.sessions[e.session], e.signer.value)
    requires e.id !in h.sealedAttempts && e.id != r.event.id && e.id !in h.sessions[e.session].terminal
    ensures var (h', response) := HandleAttempt(h, e, None, false, env);
            response.Accept? && Found(LedgerIssues(h'.chain, o), ReplayDetected)
  {
    ForgottenNumberIsTakenAgain(h, r, e, env);
    AttemptKeeps(h, e, None, false, env);
    var h' := HandleAttempt(h, e, None, false, env).0;
    var x :| h'.chain == h.store + [x] && x.event == e;
    TwiceNumbered(h.chain, r, x, o);
  }

  lemma TwiceNumbered(chain: seq<Record>, r: Record, x: Record, o: Options)
    requires Sane(chain + [r] + [x]) && SameNumber(r.event, x.event)
    ensures Found(LedgerIssues(chain + [r] + [x], o), ReplayDetected)
  {
    var all, n := chain + [r] + [x], |chain|;
    assert all[n] == r && all[n + 1] == x && r in all;
    assert Renumbered(all, n + 1);
    SaneReplays(all, o);
  }

  /**
   * A host about to adopt a terminal record into its open session seals a second one for the operation. At Level 2
   * the second must come under a number not decided yet.
   */
  lemma ForgottenOutcomeIsSealedAgain(h: Host, r: Record, e: Event, env: Env)
    requires Invariant(h) && h.config.persistent && h.tailUncertain && h.available
    requires h.store == h.chain + [r] && !r.event.outcome.Attempted?
    requires SameOperation(r.event, e) && e != r.event && Admissible(h, e, false) && Cooperates(env)
    requires e.outcome.Aborted? || e.id in h.sessions[e.session].accepted
    requires e !in h.sealedEvents && e.id !in h.sessions[e.session].terminal && !Replayed(h, e)
    ensures var (h', disposition) := HandleOutcome(h, Some(e), None, env);
            && disposition.Sealed?
            && |h'.chain| == |h.chain| + 2 && h'.chain[|h.chain|] == r && h'.chain[|h.chain| + 1].event == e
  {
    SettleAdopts(h, r);
    var settled := ChainKnown(h, Answered).0;
    FreshOutcomeIsSealed(settled, e, env);
    var h' := DecideOutcome(settled, e, None, env).0;
    var x :| h'.chain == settled.chain + [x] && x.event == e;
    var n := |h.chain|;
    assert h'.chain[n] == r && h'.chain[n + 1] == x;
  }

  // ---------------------------------------------------------------------------------------------------
  // Exactly when the host loses track.

  /** What a session that forgets a record does not know once it is adopted. */
  lemma AdoptingForgets(h: Host, r: Record)
    requires Tidied(h) && h.config.persistent && h.store == h.chain + [r] && Continues(h.chain, r)
    requires r.event.session in h.sessions && Forgets(h.sessions[r.event.session], r.event, Numbering(h))
    ensures !AllKnow(Adopt(h, r).sessions, h.store, Numbering(h))
  {
    var id := r.event.session;
    var s, s' := h.sessions[id], Adopt(h, r).sessions[id];
    assert r in h.store && s'.terminal == s.terminal && s'.decided == s.decided;
    TidyFront(h.chain, r, Numbering(h));
    if !r.event.outcome.Attempted? {
      NoTerminalYet(s, h.chain, r, Numbering(h));
      assert !KnowsTerminals(s', id, h.store);
    } else {
      assert !KnowsNumbers(s', id, h.store);
    }
    assert !Knows(s', id, h.store, Numbering(h));
  }

  /** Before its operation's terminal record is known, a session that knows the chain has none for it. */
  lemma NoTerminalYet(s: Session, records: seq<Record>, r: Record, numbered: bool)
    requires Knows(s, r.event.session, records, numbered) && FitsAfter(records, r.event, numbered)
    requires !r.event.outcome.Attempted?
    ensures r.event.id !in s.terminal
  {
  }

  /** Settling a tail in doubt leaves the sessions knowing the chain unless a record is adopted into one that forgets it. */
  lemma SettlingKnows(h: Host)
    requires Tidied(h) && h.config.persistent && h.tailUncertain
    ensures Tidied(SettleTail(h, Answered).0) <==> !AdoptsNow(h, Answered)
  {
    if AdoptsNow(h, Answered) {
      TailTells(h);
      var r := h.store[|h.store| - 1];
      var x :| h.store == h.chain + [x] && Continues(h.chain, x);
      assert x == r;
      AdoptingForgets(h, r);
      AdoptKeeps(h, r);
    } else {
      SettleTidied(h, Answered);
    }
  }

  /** The state a call is decided in: for one that carries an event, after the tail is settled. */
  function DecidedIn(h: Host, op: Op): Host {
    match op
    case Attempt(_, _, late, env) => if late then h else ChainKnown(h, env.read).0
    case Outcome(item, _, env) => if item.None? then h else ChainKnown(h, env.read).0
    case _ => h
  }

  lemma CallSettles(h: Host, op: Op)
    requires Tidied(h)
    ensures Tidied(DecidedIn(h, op)) <==> !Adopts(h, op)
  {
    match op
    case Attempt(_, _, late, env) => ReadSettles(h, env.read);
    case Outcome(_, _, env) => ReadSettles(h, env.read);
    case _ =>
  }

  lemma ReadSettles(h: Host, read: Read)
    requires Tidied(h)
    ensures Tidied(ChainKnown(h, read).0) <==> !AdoptsNow(h, read)
  {
    if h.config.persistent && h.tailUncertain && read.Answered? {
      SettlingKnows(h);
    }
  }

  /**
   * Over a whole run: every call is decided by a host whose open sessions know the chain, if and only if no call
   * adopts a record into an open session that forgets it.
   */
  lemma TidyUntilAdoption(config: Config, ops: seq<Op>)
    ensures (forall i :: 0 <= i < |ops| ==> Tidied(DecidedIn(Run(Initial(config), ops[..i]), ops[i]))) <==>
              NeverAdopts(config, ops)
  {
    if NeverAdopts(config, ops) {
      forall i | 0 <= i < |ops|
        ensures Tidied(DecidedIn(Run(Initial(config), ops[..i]), ops[i]))
      {
        NeverAdoptsBefore(config, ops, i);
        RunTidied(config, ops[..i]);
        CallSettles(Run(Initial(config), ops[..i]), ops[i]);
      }
    } else {
      var i :| 0 <= i < |ops| && Adopts(Run(Initial(config), ops[..i]), ops[i]);
      FirstAdoptionUntidies(config, ops, i);
    }
  }

  lemma NeverAdoptsBefore(config: Config, ops: seq<Op>, n: nat)
    requires n <= |ops| && forall i :: 0 <= i < n ==> !Adopts(Run(Initial(config), ops[..i]), ops[i])
    ensures NeverAdopts(config, ops[..n])
  {
    assert forall i :: 0 <= i < n ==> ops[..n][..i] == ops[..i];
  }

  /** The first call that adopts is decided by a host that has lost track. */
  lemma {:induction false} FirstAdoptionUntidies(config: Config, ops: seq<Op>, n: nat)
    requires n < |ops| && Adopts(Run(Initial(config), ops[..n]), ops[n])
    ensures exists i :: 0 <= i <= n && !Tidied(DecidedIn(Run(Initial(config), ops[..i]), ops[i]))
  {
    if i :| 0 <= i < n && Adopts(Run(Initial(config), ops[..i]), ops[i]) {
      FirstAdoptionUntidies(config, ops, i);
    } else {
      NeverAdoptsBefore(config, ops, n);
      RunTidied(config, ops[..n]);
      CallSettles(Run(Initial(config), ops[..n]), ops[n]);
    }
  }

  // ---------------------------------------------------------------------------------------------------
  // What losing track comes to.

  /** The event of the record waiting in the store. */
  function Waiting(h: Host): Event
    requires h.store != []
  {
    h.store[|h.store| - 1].event
  }

  function Unused(names: set<nat>): (name: nat)
    ensures name !in names
  {
    if names == {} then 0 else Greatest(names) + 1
  }

  /** The number again under an unused id, or the operation again under an unused key. */
  function Again(h: Host): Event
    requires h.store != [] && Waiting(h).session in h.sessions
  {
    var e := Waiting(h);
    var s := h.sessions[e.session];
    if e.outcome.Attempted? then
      e.(id := Unused(h.sealedAttempts.Keys + s.terminal.Keys + {e.id}))
    else
      e.(outcome := Aborted, reason := Some(HostUnavailable), signer := Some(Signer(Unused(s.decided.Keys), 0)),
         body := e.body + 1)
  }

  /** The host is reachable again, and takes up one more event of the session. */
  function Continuation(h: Host): seq<Op>
    requires h.store != [] && Waiting(h).session in h.sessions
  {
    var again := Again(h);
    [SetAvailable(true), if again.outcome.Attempted? then Attempt(again, None, false, WORKING) else Outcome(Some(again), None, WORKING)]
  }

  /**
   * From any tidied state about to adopt into a session that forgets: once the host is reachable and every
   * collaborator does its part, one more event has the chain hold a number, or an operation's terminal record, twice.
   */
  lemma AdoptionIsHarmful(h: Host)
    requires Tidied(h) && AdoptsNow(h, Answered)
    ensures !Tidy(Run(h, Continuation(h)).chain, Numbering(h))
  {
    var g, op := h.(available := true), Continuation(h)[1];
    UnseenTidied(h, g);
    TailTells(h);
    var r :| h.store == h.chain + [r] && Continues(h.chain, r);
    assert h.store[|h.store| - 1] == r;
    ContinuationRuns(h, op);
    if r.event.outcome.Attempted? {
      NumberAgain(g, r, Again(h));
    } else {
      OutcomeAgain(g, r, Again(h));
    }
  }

  /**
   * And nothing else is: from a tidied state, whatever comes, the chain and the store stay tidy as long as no call
   * adopts so. A record that the open session does not forget may be adopted.
   */
  lemma OnlyAdoptionIsHarmful(h: Host, ops: seq<Op>)
    requires Tidied(h) && forall i :: 0 <= i < |ops| ==> !Adopts(Run(h, ops[..i]), ops[i])
    ensures Tidy(Run(h, ops).chain, Numbering(Run(h, ops))) && Tidy(Whole(Run(h, ops)), Numbering(Run(h, ops)))
  {
    RunTidiedFrom(h, ops);
    ChainIsTidy(Run(h, ops));
  }

  lemma SwitchedOn(h: Host)
    ensures Run(h, [SetAvailable(true)]) == h.(available := true)
  {
    assert [SetAvailable(true)][..0] == [];
  }

  lemma ContinuationRuns(h: Host, op: Op)
    ensures Run(h, [SetAvailable(true), op]) == Step(h.(available := true), op)
  {
    SwitchedOn(h);
    RunSplits(h, [SetAvailable(true)], op);
    assert [SetAvailable(true), op] == [SetAvailable(true)] + [op];
  }

  lemma NumberAgain(h: Host, r: Record, e: Event)
    requires Tidied(h) && AdoptsNow(h, Answered) && h.available
    requires h.store == h.chain + [r] && Continues(h.chain, r) && r.event.outcome.Attempted? && e == Again(h)
    ensures !Tidy(Step(h, Attempt(e, None, false, WORKING)).chain, Numbering(h))
  {
    var h' := Step(h, Attempt(e, None, false, WORKING));
    ForgottenNumberIsTakenAgain(h, r, e, WORKING);
    var x :| h'.chain == h.store + [x] && x.event == e;
    NotTidy(h.chain, r, x, Numbering(h));
  }

  lemma AgainIsNewOutcome(h: Host, r: Record, e: Event)
    requires Tidied(h) && AdoptsNow(h, Answered)
    requires h.store == h.chain + [r] && Continues(h.chain, r) && !r.event.outcome.Attempted?
    requires Waiting(h).session in h.sessions && e == Again(h)
    ensures SameOperation(r.event, e) && e != r.event && Admissible(h, e, false) && e.outcome.Aborted?
    ensures e !in h.sealedEvents && e.id !in h.sessions[e.session].terminal && !Replayed(h, e)
  {
    assert h.store[|h.store| - 1] == r;
    TidyFront(h.chain, r, Numbering(h));
    NoTerminalYet(h.sessions[e.session], h.chain, r, Numbering(h));
    NotSealedBefore(h.chain, r.event, e, Numbering(h));
  }

  lemma NotSealedBefore(chain: seq<Record>, last: Event, e: Event, numbered: bool)
    requires FitsAfter(chain, last, numbered) && SameOperation(last, e) && !e.outcome.Attempted?
    ensures forall r :: r in chain ==> r.event != e
  {
    forall r | r in chain
      ensures r.event != e
    {
      assert Compatible(r.event, last, numbered);
    }
  }

  lemma TwiceConcluded(chain: seq<Record>, n: nat, numbered: bool)
    requires |chain| == n + 2 && SameOperation(chain[n].event, chain[n + 1].event) && !chain[n].event.outcome.Attempted?
    ensures !Tidy(chain, numbered)
  {
    assert !Compatible(chain[n].event, chain[n + 1].event, numbered);
  }

  lemma OutcomeAgain(h: Host, r: Record, e: Event)
    requires Tidied(h) && AdoptsNow(h, Answered) && h.available
    requires h.store == h.chain + [r] && Continues(h.chain, r) && !r.event.outcome.Attempted?
    requires Waiting(h).session in h.sessions && e == Again(h)
    ensures !Tidy(Step(h, Outcome(Some(e), None, WORKING)).chain, Numbering(h))
  {
    AgainIsNewOutcome(h, r, e);
    ForgottenOutcomeIsSealedAgain(h, r, e, WORKING);
    TwiceConcluded(Step(h, Outcome(Some(e), None, WORKING)).chain, |h.chain|, Numbering(h));
  }

  lemma NotTidy(chain: seq<Record>, r: Record, x: Record, numbered: bool)
    requires !Compatible(r.event, x.event, numbered)
    ensures !Tidy(chain + [r] + [x], numbered)
  {
    var all, n := chain + [r] + [x], |chain|;
    assert all[n] == r && all[n + 1] == x;
  }

  // ---------------------------------------------------------------------------------------------------
  // A run that gets there.

  const PLAIN_L2 := Config(L2, true, None, 0)
  const LANDED := Env(Answered, Verifies, 0, Some(0), FailedLanded)
  const WORKING := Env(Answered, Verifies, 0, Some(0), Stored)

  function SignedAttempt(id: Id): Event {
    Event(id, 7, Attempted, None, Some(Signer(5, 0)), true, true, 0)
  }

  /** One append fails although its record landed, and the tool sends another attempt under the same number. */
  const REPLAYING_RUN: seq<Op> := [
    Open(7),
    Attempt(SignedAttempt(1), None, false, LANDED),
    Attempt(SignedAttempt(2), None, false, WORKING)]

  lemma RunSplits(h: Host, ops: seq<Op>, op: Op)
    ensures Run(h, ops + [op]) == Step(Run(h, ops), op)
  {
    assert (ops + [op])[..|ops|] == ops;
  }

  /** The run breaks the property: each collaborator keeps its contract, and the auditor reports a replay. */
  lemma AdoptionNeedsItsHypothesis(o: Options)
    ensures Found(LedgerIssues(Run(Initial(PLAIN_L2), REPLAYING_RUN).chain, o), ReplayDetected)
    ensures !NeverAdopts(PLAIN_L2, REPLAYING_RUN)
  {
    var h0 := Initial(PLAIN_L2);
    var one, two := REPLAYING_RUN[..1], REPLAYING_RUN[..2];
    assert one == [] + [Open(7)] && two == one + [REPLAYING_RUN[1]] && REPLAYING_RUN == two + [REPLAYING_RUN[2]];
    RunSplits(h0, [], Open(7));
    RunSplits(h0, one, REPLAYING_RUN[1]);
    RunSplits(h0, two, REPLAYING_RUN[2]);
    var h1, h2 := Run(h0, one), Run(h0, two);
    RunKeeps(PLAIN_L2, two);
    LandedAttempt(h1);
    ForgottenNumberIsSealedAgain(h2, h2.store[0], SignedAttempt(2), WORKING, o);
    assert AdoptsNow(h2, Answered) && Adopts(h2, REPLAYING_RUN[2]);
  }

  lemma LandedAttempt(h1: Host)
    requires h1 == Step(Initial(PLAIN_L2), Open(7))
    ensures var h2 := Step(h1, REPLAYING_RUN[1]);
            && h2.config == PLAIN_L2 && h2.tailUncertain && h2.available && h2.chain == [] && h2.sealedAttempts == map[]
            && |h2.store| == 1 && h2.store[0].event == SignedAttempt(1)
            && h2.sessions.Keys == {7} && h2.sessions[7].decided == map[] && h2.sessions[7].terminal == map[]
            && h2.sessions[7].accepted == {} && h2.anomalies == []
  {
    var e := SignedAttempt(1);
    var verified := VerifySignature(h1, e, Verifies).0;
    assert verified.store == [] && verified.chain == [];
    assert SealNext([], e, 0).position == 0;
  }
}
