/**
 * Runs of one tool session over a host in the same process, any number of actions at once under one numbering:
 * the host flags nothing of it, as long as one key signs, and what the ledger lacks its own refusals account for.
 */
module ToolSequences {
  import opened Records
  import opened Ledgers
  import opened Ordering
  import opened Accounting
  import opened Verify
  import opened Hosts
  import opened Chains
  import opened HostInvariants
  import opened HostTidiness
  import opened Persistence
  import opened Tools
  import opened ToolRuns
  import opened ToolNumbering

  /** One key signs every emission of the session. */
  predicate SignsWith(step: ToolStep, key: KeyId) {
    step.Act? ==> step.signer == Some(key)
  }

  /** Fresh ids, a verifying signature, failing appends that store nothing, and reads that answer. */
  ghost predicate Allowed(w: World, step: ToolStep) {
    match step
    case Act(id, _, _, env, _, _) =>
      CleanEnv(env) && env.verdict.Verifies? && w.next <= MAX_SAFE_INTEGER
      && (id in w.actions || id !in w.host.sealedAttempts)
    case Finish(_, _, env, _, _) => CleanEnv(env) && env.verdict.Verifies? && w.next <= MAX_SAFE_INTEGER
    case Elsewhere(op) => Apart(op, w.session)
  }

  ghost predicate AllAllowed(w: World, steps: seq<ToolStep>, key: KeyId) {
    forall i :: 0 <= i < |steps| ==> Allowed(TakeAll(w, steps[..i]), steps[i]) && SignsWith(steps[i], key)
  }

  // ---------------------------------------------------------------------------------------------------
  // What every step keeps.

  /** The host has received the session's numbers up to the last one given out, and decided none beyond. */
  ghost predicate InStep(s: Session, n: nat, key: KeyId) {
    && s.received == (if n == 0 then map[] else map[key := n - 1])
    && (forall k :: k in s.decided ==> k == key && forall v :: v in s.decided[k] ==> 0 <= v < n)
  }

  ghost predicate LogNumbered(log: seq<Emission>, session: SessionId, key: KeyId) {
    forall i :: 0 <= i < |log| ==> log[i].event.session == session && log[i].event.signer == Some(Signer(key, i))
  }

  /** An event of the log that the host sealed. */
  ghost predicate SealedInLog(log: seq<Emission>, e: Event) {
    exists i :: 0 <= i < |log| && log[i] == Emission(e, true)
  }

  /** The records of the session are the emissions that were sealed. */
  ghost predicate SealedFromLog(chain: seq<Record>, log: seq<Emission>, session: SessionId) {
    && (forall r :: r in chain && r.event.session == session ==> SealedInLog(log, r.event))
    && (forall i :: 0 <= i < |log| && log[i].sealed ==> exists r :: r in chain && r.event == log[i].event)
  }

  ghost predicate SessionFollows(s: Session, actions: map<Id, Action>) {
    && (forall x :: x in s.terminal ==> x in actions && actions[x].stage.Over?)
    && (forall x :: x in actions && actions[x].stage.Running? ==> x in s.accepted)
  }

  ghost predicate Refusing(stage: Stage) {
    stage.Over? || (stage.MustAbort? && RefusalReason(Some(stage.reason)))
  }

  /** An attempt that was not sealed is one its action refuses to go on with. */
  ghost predicate UnsealedRefused(log: seq<Emission>, actions: map<Id, Action>) {
    && (forall i :: 0 <= i < |log| && log[i].event.outcome.Attempted? && !log[i].sealed ==>
          log[i].event.id in actions && Refusing(actions[log[i].event.id].stage))
    && (forall i, j :: 0 <= i < j < |log| && log[i].event.id == log[j].event.id && !log[i].sealed ==>
          log[j].event.outcome.Aborted? && RefusalReason(log[j].event.reason))
  }

  function EventsIn(log: seq<Emission>): (events: seq<Event>)
    ensures |events| == |log|
  {
    seq(|log|, i requires 0 <= i < |log| => log[i].event)
  }

  /** Every event sent took a number, and every action signs with the one key. */
  ghost predicate Aligned(w: World, key: KeyId) {
    && w.next == |w.log| && w.sends == EventsIn(w.log)
    && forall id :: id in w.actions ==> w.actions[id].signer == Some(key)
  }

  ghost predicate InSequence(w: World, key: KeyId) {
    && Audited(w) && Clean(w.host) && w.host.config.level.L2? && Aligned(w, key)
    && w.session in w.host.sessions
    && InStep(w.host.sessions[w.session], |w.log|, key)
    && LogNumbered(w.log, w.session, key)
    && SealedFromLog(w.host.chain, w.log, w.session)
    && SessionFollows(w.host.sessions[w.session], w.actions)
    && UnsealedRefused(w.log, w.actions)
  }

  // ---------------------------------------------------------------------------------------------------
  // What the outcomes of an operation say of the log.

  /** Two emissions of one operation are its attempt and then its terminal outcome. */
  ghost predicate OperationsInOrder(log: seq<Emission>) {
    forall i, j :: 0 <= i < j < |log| && log[i].event.id == log[j].event.id ==>
      log[i].event.outcome.Attempted? && !log[j].event.outcome.Attempted?
  }

  lemma {:induction false} SentIsListed(sends: seq<Event>, i: nat)
    requires i < |sends|
    ensures sends[i].outcome in OutcomesOf(sends, sends[i].id)
  {
    var last := |sends| - 1;
    if i < last {
      SentIsListed(sends[..last], i);
    }
  }

  lemma {:induction false} SentInOrder(sends: seq<Event>, i: nat, j: nat)
    requires i < j < |sends| && sends[i].id == sends[j].id && |OutcomesOf(sends, sends[i].id)| <= 2
    ensures OutcomesOf(sends, sends[i].id) == [sends[i].outcome, sends[j].outcome]
  {
    var last := |sends| - 1;
    SentIsListed(sends[..last], i);
    if j < last {
      SentInOrder(sends[..last], i, j);
    }
  }

  lemma LoggedIsSent(w: World, key: KeyId, i: nat)
    requires Fits(w) && Aligned(w, key) && i < |w.log|
    ensures w.log[i].event.id in w.actions && w.log[i].event.outcome in SentOf(w.actions[w.log[i].event.id].stage)
  {
    assert w.sends[i] == w.log[i].event;
    SentIsListed(w.sends, i);
  }

  lemma LogIsInOrder(w: World, key: KeyId)
    requires Fits(w) && Aligned(w, key)
    ensures OperationsInOrder(w.log)
  {
    forall i, j | 0 <= i < j < |w.log| && w.log[i].event.id == w.log[j].event.id
      ensures w.log[i].event.outcome.Attempted? && !w.log[j].event.outcome.Attempted?
    {
      LoggedIsSent(w, key, i);
      assert w.sends[i] == w.log[i].event && w.sends[j] == w.log[j].event;
      SentInOrder(w.sends, i, j);
      assert EndFits(w.actions[w.log[i].event.id].stage);
    }
  }

  // ---------------------------------------------------------------------------------------------------
  // Each step.

  lemma BeginsInSequence(h: Host, session: SessionId, key: KeyId)
    requires Clean(h) && h.config.level.L2? && session !in h.issued
    ensures InSequence(Begin(h, session), key)
  {
    BeginsAudited(h, session);
    OpenKeeps(h, session);
  }

  lemma StillInStep(s: Session, s': Session, e: Event, sealed: bool, n: nat, key: KeyId)
    requires InStep(s, n, key) && e.signer == Some(Signer(key, n)) && SessionTook(s, s', e, sealed)
    ensures InStep(s', n + 1, key)
  {
  }

  lemma StillSealedFromLog(h: Host, h': Host, log: seq<Emission>, e: Event, sealed: bool)
    requires SealedFromLog(h.chain, log, e.session) && LedgerTook(h, h', e, sealed)
    ensures SealedFromLog(h'.chain, log + [Emission(e, sealed)], e.session)
  {
    var all := log + [Emission(e, sealed)];
    if sealed {
      var r :| h'.chain == h.chain + [r] && r.event == e;
      assert forall x :: x in h'.chain <==> x in h.chain || x == r;
    }
    assert forall i :: 0 <= i < |log| ==> all[i] == log[i];
    forall x | x in h'.chain && x.event.session == e.session
      ensures SealedInLog(all, x.event)
    {
      if x in h.chain {
        assert SealedInLog(log, x.event);
        var i :| 0 <= i < |log| && log[i] == Emission(x.event, true);
        assert all[i] == Emission(x.event, true);
      } else {
        assert all[|log|] == Emission(x.event, true);
      }
    }
  }

  lemma OwnIsNotSealedYet(w: World, key: KeyId, e: Event)
    requires InSequence(w, key) && e.session == w.session && e.signer == Some(Signer(key, |w.log|))
    ensures e !in w.host.sealedEvents
  {
    forall r | r in w.host.chain
      ensures r.event != e
    {
      assert r.event.session == w.session ==> SealedInLog(w.log, r.event);
    }
    assert EventsIndexed(w.host.chain, w.host.sealedEvents);
  }

  /** The event the session emits next is the one the host expects. */
  lemma NextIsExpected(w: World, key: KeyId, e: Event)
    requires InSequence(w, key) && Valid(e) && e.canonicalizable && e.session == w.session
    requires e.signer == Some(Signer(key, |w.log|)) && e.id !in w.host.sessions[w.session].terminal
    ensures Expects(w.host, e)
  {
  }

  /** What the next emission keeps of the numbering. */
  lemma TakenInStep(w: World, h': Host, key: KeyId, e: Event, sealed: bool)
    requires w.session in w.host.sessions && InStep(w.host.sessions[w.session], |w.log|, key)
    requires LogNumbered(w.log, w.session, key) && SealedFromLog(w.host.chain, w.log, w.session)
    requires e.session == w.session && e.signer == Some(Signer(key, |w.log|)) && Took(w.host, h', e, sealed)
    ensures w.session in h'.sessions && InStep(h'.sessions[w.session], |w.log| + 1, key)
    ensures LogNumbered(w.log + [Emission(e, sealed)], w.session, key)
    ensures SealedFromLog(h'.chain, w.log + [Emission(e, sealed)], w.session)
  {
    StillInStep(w.host.sessions[w.session], h'.sessions[w.session], e, sealed, |w.log|, key);
    StillSealedFromLog(w.host, h', w.log, e, sealed);
    StillNumbered(w.log, w.session, key, Emission(e, sealed));
  }

  lemma StillNumbered(log: seq<Emission>, session: SessionId, key: KeyId, last: Emission)
    requires LogNumbered(log, session, key)
    requires last.event.session == session && last.event.signer == Some(Signer(key, |log|))
    ensures LogNumbered(log + [last], session, key)
  {
  }

  lemma Assembled(w: World, key: KeyId)
    requires Audited(w) && Clean(w.host) && w.host.config.level.L2? && w.session in w.host.sessions && Aligned(w, key)
    requires InStep(w.host.sessions[w.session], |w.log|, key) && LogNumbered(w.log, w.session, key)
    requires SealedFromLog(w.host.chain, w.log, w.session)
    requires SessionFollows(w.host.sessions[w.session], w.actions) && UnsealedRefused(w.log, w.actions)
    ensures InSequence(w, key)
  {
  }

  /** A new attempt, sealed or refused. */
  lemma AttemptRefused(log: seq<Emission>, actions: map<Id, Action>, e: Event, sealed: bool, action: Action)
    requires UnsealedRefused(log, actions) && e.id !in actions && e.outcome.Attempted?
    requires forall i :: 0 <= i < |log| ==> log[i].event.id in actions
    requires sealed || Refusing(action.stage)
    ensures UnsealedRefused(log + [Emission(e, sealed)], actions[e.id := action])
  {
    var all := log + [Emission(e, sealed)];
    assert forall i :: 0 <= i < |log| ==> all[i] == log[i] && all[i].event.id != e.id;
  }

  /** The outcome an action owed. */
  lemma OutcomeRefused(log: seq<Emission>, actions: map<Id, Action>, e: Event, sealed: bool, action: Action)
    requires UnsealedRefused(log, actions) && e.id in actions && !e.outcome.Attempted? && action.stage.Over?
    requires forall i :: 0 <= i < |log| && log[i].event.id == e.id ==> log[i].event.outcome.Attempted?
    requires var stage := actions[e.id].stage;
             stage.Running? || (stage.MustAbort? && e.outcome.Aborted? && e.reason == Some(stage.reason))
    ensures UnsealedRefused(log + [Emission(e, sealed)], actions[e.id := action])
  {
    var all := log + [Emission(e, sealed)];
    forall i | 0 <= i < |log| && log[i].event.id == e.id && !log[i].sealed
      ensures e.outcome.Aborted? && RefusalReason(e.reason)
    {
      assert Refusing(actions[e.id].stage);
    }
    assert forall i :: 0 <= i < |log| ==> all[i] == log[i];
  }

  /** What one emission leaves the session's side as. */
  ghost predicate Emits(w: World, w': World, e: Event, sealed: bool, action: Action)
    requires e.signer.Some?
  {
    && w' == w.(host := w'.host, next := w.next + 1, log := w.log + [Emission(e, sealed)], sends := w.sends + [e],
                actions := w.actions[e.id := action])
    && Took(w.host, w'.host, e, sealed)
  }

  lemma StillAligned(w: World, w': World, key: KeyId, e: Event, sealed: bool, action: Action)
    requires Aligned(w, key) && action.signer == Some(key)
    requires w'.next == w.next + 1 && w'.log == w.log + [Emission(e, sealed)] && w'.sends == w.sends + [e]
    requires w'.actions == w.actions[e.id := action]
    ensures Aligned(w', key)
  {
    assert EventsIn(w'.log) == EventsIn(w.log) + [e];
  }

  lemma AttemptedInSequence(w: World, w': World, key: KeyId, e: Event, sealed: bool, action: Action)
    requires InSequence(w, key) && e.session == w.session && e.signer == Some(Signer(key, |w.log|))
    requires e.outcome.Attempted? && e.id !in w.actions && Emits(w, w', e, sealed, action) && action.signer == Some(key)
    requires (sealed || Refusing(action.stage)) && (action.stage.Running? ==> sealed) && Audited(w')
    ensures InSequence(w', key)
  {
    forall i | 0 <= i < |w.log|
      ensures w.log[i].event.id in w.actions
    {
      LoggedIsSent(w, key, i);
    }
    AttemptRefused(w.log, w.actions, e, sealed, action);
    AcceptedFollows(w.host.sessions[w.session], w'.host.sessions[w.session], w.actions, e, sealed, action);
    TakenInStep(w, w'.host, key, e, sealed);
    StillAligned(w, w', key, e, sealed, action);
    Assembled(w', key);
  }

  lemma AttemptCounts(w: World, step: ToolStep, e: Event, h': Host, response: Response)
    requires step.Act? && step.signer.Some? && e == EventFor(w, step.id, Attempted, None, step.signer, step.body)
    requires (h', response) == HandleAttempt(w.host, e, None, false, step.env)
    ensures SendAttempt(w, step, e) ==
              w.(host := h', next := w.next + 1, log := w.log + [Emission(e, response.Accept?)], sends := w.sends + [e],
                 actions := w.actions[e.id := Action(step.signer, StageAfter(response, step.judged))])
  {
  }

  lemma StageTells(response: Response, judged: Option<AbortReason>)
    ensures var stage := StageAfter(response, judged);
            && (response.Unavailable? ==> stage == MustAbort(HostUnavailable)) && (stage.Running? ==> response.Accept?)
            && (response.Accept? && stage.MustAbort? ==> judged == Some(stage.reason))
  {
  }

  /** What sending an attempt comes to, whatever came before. */
  lemma ActionTook(w: World, step: ToolStep, e: Event)
    requires step.Act? && step.signer.Some? && CleanEnv(step.env) && step.env.verdict.Verifies?
    requires e == EventFor(w, step.id, Attempted, None, step.signer, step.body)
    requires Clean(w.host) && Expects(w.host, e) && e.id !in w.host.sealedAttempts
    ensures var (h', response) := HandleAttempt(w.host, e, None, false, step.env);
            var stage := StageAfter(response, step.judged);
            && Emits(w, SendAttempt(w, step, e), e, response.Accept?, Action(step.signer, stage))
            && (response.Accept? || stage == MustAbort(HostUnavailable)) && (stage.Running? ==> response.Accept?)
            && (stage.MustAbort? ==> stage.reason == HostUnavailable || step.judged == Some(stage.reason))
  {
    AttemptIsTaken(w.host, e, step.env);
    var (h', response) := HandleAttempt(w.host, e, None, false, step.env);
    AttemptCounts(w, step, e, h', response);
    StageTells(response, step.judged);
  }

  lemma ActionStaysInSequence(w: World, key: KeyId, step: ToolStep)
    requires InSequence(w, key) && step.Act? && Allowed(w, step) && step.signer == Some(key)
    requires step.id !in w.actions && step.signs
    ensures InSequence(Take(w, step), key) && Take(w, step).host.anomalies == w.host.anomalies
    ensures var stage := Take(w, step).actions[step.id].stage;
            stage.MustAbort? ==> stage.reason == HostUnavailable || step.judged == Some(stage.reason)
  {
    var e := EventFor(w, step.id, Attempted, None, step.signer, step.body);
    NewIsNotTerminal(w, key, step.id);
    NextIsExpected(w, key, e);
    ActionTook(w, step, e);
    TakeKeeps(w, step);
    var response := HandleAttempt(w.host, e, None, false, step.env).1;
    assert Take(w, step) == SendAttempt(w, step, e);
    AttemptedInSequence(w, SendAttempt(w, step, e), key, e, response.Accept?, Action(step.signer, StageAfter(response, step.judged)));
  }

  lemma NewIsNotTerminal(w: World, key: KeyId, id: Id)
    requires InSequence(w, key) && (id in w.actions ==> !w.actions[id].stage.Over?)
    ensures id !in w.host.sessions[w.session].terminal
  {
  }

  lemma AcceptedFollows(s: Session, s': Session, actions: map<Id, Action>, e: Event, sealed: bool, action: Action)
    requires SessionFollows(s, actions) && e.signer.Some? && SessionTook(s, s', e, sealed)
    requires e.outcome.Attempted? && e.id !in actions && (action.stage.Running? ==> sealed)
    ensures SessionFollows(s', actions[e.id := action])
  {
  }

  lemma ConcludedFollows(s: Session, s': Session, actions: map<Id, Action>, e: Event, sealed: bool, action: Action)
    requires SessionFollows(s, actions) && e.signer.Some? && SessionTook(s, s', e, sealed) && !e.outcome.Attempted?
    requires action.stage.Over?
    ensures SessionFollows(s', actions[e.id := action])
  {
  }

  /** Of an operation that still owes its outcome only the attempt is in the log. */
  lemma OnlyItsAttempt(w: World, key: KeyId, id: Id)
    requires Fits(w) && Aligned(w, key) && Owes(w, id)
    ensures forall i :: 0 <= i < |w.log| && w.log[i].event.id == id ==> w.log[i].event.outcome.Attempted?
  {
    forall i | 0 <= i < |w.log| && w.log[i].event.id == id
      ensures w.log[i].event.outcome.Attempted?
    {
      LoggedIsSent(w, key, i);
    }
  }

  lemma ConcludedInSequence(w: World, w': World, key: KeyId, e: Event, sealed: bool, action: Action)
    requires InSequence(w, key) && e.session == w.session && e.signer == Some(Signer(key, |w.log|))
    requires !e.outcome.Attempted? && Owes(w, e.id) && Emits(w, w', e, sealed, action)
    requires action.signer == Some(key) && action.stage.Over?
    requires var stage := w.actions[e.id].stage;
             stage.Running? || (stage.MustAbort? && e.outcome.Aborted? && e.reason == Some(stage.reason))
    requires Audited(w')
    ensures InSequence(w', key)
  {
    OnlyItsAttempt(w, key, e.id);
    OutcomeRefused(w.log, w.actions, e, sealed, action);
    ConcludedFollows(w.host.sessions[w.session], w'.host.sessions[w.session], w.actions, e, sealed, action);
    TakenInStep(w, w'.host, key, e, sealed);
    StillAligned(w, w', key, e, sealed, action);
    Assembled(w', key);
  }

  /** What sending an owed outcome comes to, whatever came before. */
  lemma OutcomeTook(w: World, step: ToolStep, e: Event)
    requires step.Finish? && step.signs && CleanEnv(step.env) && step.env.verdict.Verifies?
    requires Owes(w, step.id) && e.id == step.id && e.signer.Some? && e.signer.value.number == w.next
    requires Clean(w.host) && Expects(w.host, e) && e !in w.host.sealedEvents && !e.outcome.Attempted?
    requires e.outcome.Aborted? || e.id in w.host.sessions[e.session].accepted
    ensures var sealed := HandleOutcome(w.host, Some(e), None, step.env).1.Sealed?;
            Emits(w, SendOutcome(w, step, e), e, sealed, Ended(w, step).actions[step.id])
  {
    OutcomeIsTaken(w.host, e, step.env);
    EndedIs(w, step);
    var (h', disposition) := HandleOutcome(w.host, Some(e), None, step.env);
    OutcomeCounts(w, step, e, h', disposition);
  }

  lemma OutcomeCounts(w: World, step: ToolStep, e: Event, h': Host, disposition: Disposition)
    requires step.Finish? && Owes(w, step.id) && e.id == step.id && e.signer.Some? && e.signer.value.number == w.next
    requires (h', disposition) == HandleOutcome(w.host, Some(e), None, step.env) && !disposition.OutcomeThrew?
    ensures SendOutcome(w, step, e) ==
              w.(host := h', next := w.next + 1, log := w.log + [Emission(e, disposition.Sealed?)], sends := w.sends + [e],
                 actions := w.actions[e.id := Ended(w, step).actions[step.id]])
  {
  }

  lemma OwedIsExpected(w: World, key: KeyId, step: ToolStep)
    requires InSequence(w, key) && step.Finish? && w.next <= MAX_SAFE_INTEGER && Owes(w, step.id)
    ensures var e := OwedEvent(w, step);
            && e.id == step.id && e.session == w.session && e.signer == Some(Signer(key, |w.log|))
            && Clean(w.host) && Expects(w.host, e) && e !in w.host.sealedEvents && !e.outcome.Attempted?
            && (e.outcome.Aborted? || e.id in w.host.sessions[e.session].accepted)
            && var stage := w.actions[e.id].stage;
               stage.Running? || (stage.MustAbort? && e.outcome.Aborted? && e.reason == Some(stage.reason))
  {
    var e := OwedEvent(w, step);
    NewIsNotTerminal(w, key, step.id);
    NextIsExpected(w, key, e);
    OwnIsNotSealedYet(w, key, e);
    if w.actions[step.id].stage.Running? {
      RunningIsAccepted(w, key, step.id);
    }
  }

  lemma OutcomeStaysInSequence(w: World, key: KeyId, step: ToolStep)
    requires InSequence(w, key) && step.Finish? && Allowed(w, step) && step.signs && Owes(w, step.id)
    ensures InSequence(Take(w, step), key) && Take(w, step).host.anomalies == w.host.anomalies
  {
    var e := OwedEvent(w, step);
    OwedIsExpected(w, key, step);
    OutcomeTook(w, step, e);
    TakeKeeps(w, step);
    EndedIs(w, step);
    assert Take(w, step) == SendOutcome(w, step, e);
    var sealed := HandleOutcome(w.host, Some(e), None, step.env).1.Sealed?;
    ConcludedInSequence(w, SendOutcome(w, step, e), key, e, sealed, Ended(w, step).actions[step.id]);
  }

  lemma RunningIsAccepted(w: World, key: KeyId, id: Id)
    requires InSequence(w, key) && id in w.actions && w.actions[id].stage.Running?
    ensures id in w.host.sessions[w.session].accepted
  {
  }

  lemma ElsewhereStaysInSequence(w: World, key: KeyId, op: Op)
    requires InSequence(w, key) && Apart(op, w.session)
    ensures InSequence(Take(w, Elsewhere(op)), key)
  {
    ElsewhereStaysClean(w.host, op, w.session);
    ElsewhereAdds(w.host, op, w.session);
    TakeKeeps(w, Elsewhere(op));
    OthersSealNothingHere(w.host.chain, Step(w.host, op).chain, w.log, w.session);
  }

  lemma OthersSealNothingHere(chain: seq<Record>, chain': seq<Record>, log: seq<Emission>, session: SessionId)
    requires SealedFromLog(chain, log, session)
    requires chain' == chain || exists r: Record :: r.event.session != session && chain' == chain + [r]
    ensures SealedFromLog(chain', log, session)
  {
    if chain' != chain {
      var r: Record :| r.event.session != session && chain' == chain + [r];
      assert forall x :: x in chain' <==> x in chain || x == r;
    }
  }

  lemma SilentlyRefused(log: seq<Emission>, actions: map<Id, Action>, id: Id, action: Action)
    requires UnsealedRefused(log, actions)
    requires action.stage.Over? || forall i :: 0 <= i < |log| ==> log[i].event.id != id
    ensures UnsealedRefused(log, actions[id := action])
  {
  }

  /** An action that ends or never starts without emitting anything. */
  lemma ActionStaysSilent(w: World, w': World, key: KeyId, id: Id, action: Action)
    requires InSequence(w, key) && action.signer == Some(key) && w' == w.(actions := w.actions[id := action]) && Audited(w')
    requires if id in w.actions then action.stage.Over? else action.stage.NeverSent?
    ensures InSequence(w', key)
  {
    if id !in w.actions {
      forall i | 0 <= i < |w.log|
        ensures w.log[i].event.id != id
      {
        LoggedIsSent(w, key, i);
      }
    }
    SilentlyRefused(w.log, w.actions, id, action);
    SilentlyFollows(w.host.sessions[w.session], w.actions, id, action);
    Assembled(w', key);
  }

  lemma SilentlyFollows(s: Session, actions: map<Id, Action>, id: Id, action: Action)
    requires SessionFollows(s, actions) && !action.stage.Running? && (id in actions ==> action.stage.Over?)
    ensures SessionFollows(s, actions[id := action])
  {
  }

  /** A step of the session that emits nothing changes nothing but its action's stage. */
  lemma SilentStaysInSequence(w: World, key: KeyId, step: ToolStep)
    requires InSequence(w, key) && !step.Elsewhere? && !step.signs && SignsWith(step, key)
    ensures InSequence(Take(w, step), key) && Take(w, step).host == w.host
  {
    TakeKeeps(w, step);
    if step.Act? && step.id !in w.actions {
      ActionStaysSilent(w, Take(w, step), key, step.id, Action(step.signer, NeverSent));
    } else if step.Finish? && Owes(w, step.id) {
      EndedIs(w, step);
      ActionStaysSilent(w, Take(w, step), key, step.id, Ended(w, step).actions[step.id]);
    }
  }

  lemma TakeStaysInSequence(w: World, key: KeyId, step: ToolStep)
    requires InSequence(w, key) && Allowed(w, step) && SignsWith(step, key)
    ensures InSequence(Take(w, step), key)
    ensures !step.Elsewhere? ==> Take(w, step).host.anomalies == w.host.anomalies
  {
    match step
    case Act(id, _, _, _, signs, _) =>
      if id !in w.actions && signs {
        ActionStaysInSequence(w, key, step);
      } else if !signs {
        SilentStaysInSequence(w, key, step);
      }
    case Finish(id, _, _, signs, _) =>
      if Owes(w, id) && signs {
        OutcomeStaysInSequence(w, key, step);
      } else if !signs {
        SilentStaysInSequence(w, key, step);
      }
    case Elsewhere(op) => ElsewhereStaysInSequence(w, key, op);
  }

  lemma {:induction false} AlwaysInSequence(w: World, key: KeyId, steps: seq<ToolStep>)
    requires InSequence(w, key) && AllAllowed(w, steps, key)
    ensures InSequence(TakeAll(w, steps), key)
  {
    if steps != [] {
      var n := |steps| - 1;
      AllAllowedFront(w, steps, key, n);
      AlwaysInSequence(w, key, steps[..n]);
      TakeStaysInSequence(TakeAll(w, steps[..n]), key, steps[n]);
    }
  }

  /**
   * The host flags nothing of a session that numbers under one key: whatever is interleaved with it, no emission
   * of its own adds an anomaly, be it a replay, a gap or an orphan.
   */
  lemma NothingOfItIsFlagged(h: Host, session: SessionId, key: KeyId, steps: seq<ToolStep>, i: nat)
    requires Clean(h) && h.config.level.L2? && session !in h.issued
    requires AllAllowed(Begin(h, session), steps, key) && i < |steps| && !steps[i].Elsewhere?
    ensures TakeAll(Begin(h, session), steps[..i + 1]).host.anomalies
              == TakeAll(Begin(h, session), steps[..i]).host.anomalies
  {
    var w := Begin(h, session);
    BeginsInSequence(h, session, key);
    AllAllowedFront(w, steps, key, i);
    AlwaysInSequence(w, key, steps[..i]);
    TakeAllNext(w, steps, i);
    TakeStaysInSequence(TakeAll(w, steps[..i]), key, steps[i]);
  }

  lemma AllAllowedFront(w: World, steps: seq<ToolStep>, key: KeyId, n: nat)
    requires AllAllowed(w, steps, key) && n <= |steps|
    ensures AllAllowed(w, steps[..n], key)
  {
    assert forall j :: 0 <= j < n ==> steps[..n][..j] == steps[..j];
  }

  lemma TakeAllNext(w: World, steps: seq<ToolStep>, n: nat)
    requires n < |steps|
    ensures TakeAll(w, steps[..n + 1]) == Take(TakeAll(w, steps[..n]), steps[n])
  {
    assert steps[..n + 1][..n] == steps[..n];
  }

  lemma OverreachIsReceived(h: Host, e: Event)
    requires Clean(h) && h.config.level.L2? && e.signer.Some? && e.session in h.sessions
    requires e.signer.value.number > Expected(h.sessions[e.session], e.signer.value.key)
    ensures var (g, checked) := VerifySignature(h, e, Verifies);
            && checked.Passed? && Clean(g) && g.config == h.config && g.sealedAttempts == h.sealedAttempts
            && g.anomalies == h.anomalies + [Anomaly(e.id, SignerSeqGap)]
            && e.session in g.sessions && g.sessions[e.session].decided == h.sessions[e.session].decided
            && g.sessions[e.session].terminal == h.sessions[e.session].terminal
  {
    ReceiveKeeps(h, e);
  }

  /** An attempt under a number beyond the one expected is flagged, and goes on. */
  lemma GapIsFlagged(h: Host, e: Event, env: Env)
    requires Clean(h) && CleanEnv(env) && env.verdict.Verifies? && h.config.level.L2?
    requires Valid(e) && e.canonicalizable && e.outcome.Attempted? && e.signer.Some? && e.session in h.sessions
    requires e.signer.value.number > Expected(h.sessions[e.session], e.signer.value.key)
    requires e.id !in h.sealedAttempts && e.id !in h.sessions[e.session].terminal
    requires e.signer.value.key !in h.sessions[e.session].decided
    ensures HandleAttempt(h, e, None, false, env).0.anomalies == h.anomalies + [Anomaly(e.id, SignerSeqGap)]
  {
    CleanSettles(h);
    var settled := ChainKnown(h, Answered).0;
    OverreachIsReceived(settled, e);
    var verified := VerifySignature(settled, e, Verifies).0;
    FreshAttemptFollows(verified, e);
    NewAttemptIsRecorded(verified, e, env);
    assert SealAttempt(verified, e, env) == RecordAttempt(verified, e, env);
  }

  lemma SecondKeyIsBeyond(w: World, key: KeyId, other: KeyId)
    requires InSequence(w, key) && other != key && |w.log| > 0
    ensures var s := w.host.sessions[w.session]; Expected(s, other) == 0 && other !in s.decided
  {
  }

  lemma SecondKeyIsFlagged(w: World, key: KeyId, step: ToolStep)
    requires InSequence(w, key) && step.Act? && Allowed(w, step) && step.signs && step.id !in w.actions
    requires |w.log| > 0 && step.signer.Some? && step.signer.value != key
    ensures Take(w, step).host.anomalies == w.host.anomalies + [Anomaly(step.id, SignerSeqGap)]
  {
    SecondKeyIsBeyond(w, key, step.signer.value);
    NewIsNotTerminal(w, key, step.id);
    GapIsFlagged(w.host, EventFor(w, step.id, Attempted, None, step.signer, step.body), step.env);
  }

  /**
   * One key is what it takes. Sharing a numbering, two signers take numbers from one sequence, but the host counts
   * each key on its own: after the first emission an attempt is flagged as a gap exactly when another key signs it.
   */
  lemma SecondKeyOpensGap(w: World, key: KeyId, step: ToolStep)
    requires InSequence(w, key) && step.Act? && Allowed(w, step) && step.signs && step.id !in w.actions
    requires |w.log| > 0 && step.signer.Some?
    ensures Take(w, step).host.anomalies ==
              w.host.anomalies + if step.signer.value == key then [] else [Anomaly(step.id, SignerSeqGap)]
  {
    if step.signer.value == key {
      TakeStaysInSequence(w, key, step);
    } else {
      SecondKeyIsFlagged(w, key, step);
    }
  }

  const WORKING := Env(Answered, Verifies, 0, Some(0), Stored)

  /** Two attempts under one numbering, each signed with a key of its own. */
  const TWO_KEYS: seq<ToolStep> := [
    Act(1, Some(5), 0, WORKING, true, None),
    Act(2, Some(6), 0, WORKING, true, None)]

  const PLAIN := Config(L2, true, None, 0)

  /** A run that the host flags: every collaborator does its part, and the two numbers follow one another. */
  lemma TwoKeysAreFlagged()
    ensures var w := TakeAll(Begin(Initial(PLAIN), 7), TWO_KEYS);
            && w.host.anomalies == [Anomaly(2, SignerSeqGap)] && |w.log| == 2
            && w.log[0].event.signer == Some(Signer(5, 0)) && w.log[1].event.signer == Some(Signer(6, 1))
  {
    InitialHolds(PLAIN);
    BeginsInSequence(Initial(PLAIN), 7, 5);
    TwoSteps(Begin(Initial(PLAIN), 7), TWO_KEYS[0], TWO_KEYS[1]);
    SecondIsFlagged(Begin(Initial(PLAIN), 7));
  }

  lemma SecondIsFlagged(w: World)
    requires InSequence(w, 5) && w.next == 0 && w.log == [] && w.actions == map[] && w.host.sealedAttempts == map[]
    requires w.host.anomalies == []
    ensures var w' := Take(Take(w, TWO_KEYS[0]), TWO_KEYS[1]);
            && w'.host.anomalies == [Anomaly(2, SignerSeqGap)] && |w'.log| == 2
            && w'.log[0].event.signer == Some(Signer(5, 0)) && w'.log[1].event.signer == Some(Signer(6, 1))
  {
    var w1 := Take(w, TWO_KEYS[0]);
    TakeStaysInSequence(w, 5, TWO_KEYS[0]);
    ActionLogs(w, TWO_KEYS[0]);
    ActionSealsItsOwn(w, TWO_KEYS[0]);
    SecondKeyIsFlagged(w1, 5, TWO_KEYS[1]);
    ActionLogs(w1, TWO_KEYS[1]);
  }

  /** An attempt is indexed under its own id or not at all. */
  lemma ActionSealsItsOwn(w: World, step: ToolStep)
    requires step.Act? && step.signs && step.signer.Some? && step.id !in w.actions
    requires Clean(w.host) && Clean(Take(w, step).host)
    ensures Take(w, step).host.sealedAttempts.Keys <= w.host.sealedAttempts.Keys + {step.id}
  {
    var e := EventFor(w, step.id, Attempted, None, step.signer, step.body);
    ActionLogs(w, step);
    AttemptAdds(w.host, e, None, false, step.env);
    IndexedAtMost(w.host, Take(w, step).host, e);
  }

  lemma IndexGrows(chain: seq<Record>, index: map<Id, Record>, chain': seq<Record>, index': map<Id, Record>, e: Event)
    requires AttemptsIndexed(chain, index) && AttemptsIndexed(chain', index')
    requires chain' == chain || exists r: Record :: r.event == e && chain' == chain + [r]
    ensures index'.Keys <= index.Keys + {e.id}
  {
    forall id | id in index'
      ensures id in index || id == e.id
    {
      var r := index'[id];
      assert r in chain' && r.event.outcome.Attempted? && r.event.id == id;
      assert r in chain || r.event == e;
    }
  }

  lemma IndexedAtMost(h: Host, h': Host, e: Event)
    requires Clean(h) && Clean(h') && Adds(h, h', {e})
    ensures h'.sealedAttempts.Keys <= h.sealedAttempts.Keys + {e.id}
  {
    assert Whole(h) == h.chain && Whole(h') == h'.chain;
    IndexGrows(h.chain, h.sealedAttempts, h'.chain, h'.sealedAttempts, e);
  }

  /** An attempt that reaches the host takes the next number, whatever the host makes of it. */
  lemma ActionLogs(w: World, step: ToolStep)
    requires step.Act? && step.signs && step.signer.Some? && step.id !in w.actions
    ensures var w' := Take(w, step);
            && w'.next == w.next + 1 && |w'.log| == |w.log| + 1 && w'.log[..|w.log|] == w.log
            && w'.log[|w.log|].event.signer == Some(Signer(step.signer.value, w.next))
            && w'.actions.Keys == w.actions.Keys + {step.id}
            && w'.host == HandleAttempt(w.host, w'.log[|w.log|].event, None, false, step.env).0
            && w'.log[|w.log|].event.id == step.id
  {
  }
}
