/**
 * Audit before act, over every interleaving: no body runs before its attempt is sealed, and of every operation one
 * attempt and then one terminal outcome is sent, a success only if it ran and was marked one.
 */
module ToolRuns {
  import opened Records
  import opened Ledgers
  import opened Hosts
  import opened Chains
  import opened HostInvariants
  import opened Persistence
  import opened Tools

  /** What was sent of an operation that stands so. */
  function SentOf(stage: Stage): seq<Outcome> {
    match stage
    case NeverSent => []
    case MustAbort(_) => [Attempted]
    case Running => [Attempted]
    case Over(outcome, sent, _, _) => if sent then [Attempted, outcome] else [Attempted]
  }

  ghost predicate SendsFit(sends: seq<Event>, actions: map<Id, Action>) {
    forall id :: OutcomesOf(sends, id) == if id in actions then SentOf(actions[id].stage) else []
  }

  /** The body was entered. */
  predicate Ran(stage: Stage) {
    stage.Running? || (stage.Over? && stage.ran)
  }

  /** How an operation ended fits what became of it. */
  predicate EndFits(stage: Stage) {
    stage.Over? ==>
      && (stage.outcome.Success? <==> stage.ran && MarkSuccess in stage.marks && MarkFailed !in stage.marks)
      && (stage.outcome.Aborted? <==> !stage.ran)
      && !stage.outcome.Attempted?
  }

  /** Every body that was entered has its attempt in the chain. */
  ghost predicate RunsAreSealed(w: World) {
    forall id :: id in w.actions && Ran(w.actions[id].stage) ==> AttemptIn(w.host.chain, w.session, id)
  }

  ghost predicate EndsFit(actions: map<Id, Action>) {
    forall id :: id in actions ==> EndFits(actions[id].stage)
  }

  ghost predicate Fits(w: World) {
    RunsAreSealed(w) && SendsFit(w.sends, w.actions) && EndsFit(w.actions)
  }

  ghost predicate Audited(w: World) {
    Invariant(w.host) && Fits(w)
  }

  lemma SendsFitWith(sends: seq<Event>, actions: map<Id, Action>, e: Event, action: Action)
    requires SendsFit(sends, actions)
    requires SentOf(action.stage) == OutcomesOf(sends, e.id) + [e.outcome]
    ensures SendsFit(sends + [e], actions[e.id := action])
  {
    forall id
      ensures OutcomesOf(sends + [e], id) ==
                if id in actions[e.id := action] then SentOf(actions[e.id := action][id].stage) else []
    {
      OutcomesWith(sends, e, id);
    }
  }

  lemma SilentFit(sends: seq<Event>, actions: map<Id, Action>, id: Id, action: Action)
    requires SendsFit(sends, actions) && SentOf(action.stage) == OutcomesOf(sends, id)
    ensures SendsFit(sends, actions[id := action])
  {
  }

  /** An attempt sent to the host: nothing sealed is lost, and one that is accepted is sealed. */
  lemma SentAttempt(h: Host, e: Event, env: Env)
    requires Invariant(h)
    ensures var (h', response) := HandleAttempt(h, e, None, false, env);
            && Invariant(h') && h.chain <= h'.chain
            && (response.Accept? ==> e.outcome.Attempted? && AttemptIn(h'.chain, e.session, e.id))
  {
    AttemptKeeps(h, e, None, false, env);
    AttemptAdds(h, e, None, false, env);
    AcceptNames(h, e, None, false, env);
    var (h', response) := HandleAttempt(h, e, None, false, env);
    if response.Accept? {
      OnlyAttemptsAreAccepted(h, e, env);
      assert h'.chain[response.position] in h'.chain;
    }
  }

  lemma OnlyAttemptsAreAccepted(h: Host, e: Event, env: Env)
    ensures HandleAttempt(h, e, None, false, env).1.Accept? ==> e.outcome.Attempted?
  {
  }

  lemma SentOutcome(h: Host, e: Event, env: Env)
    requires Invariant(h)
    ensures var h' := HandleOutcome(h, Some(e), None, env).0; Invariant(h') && h.chain <= h'.chain
  {
    OutcomeKeeps(h, Some(e), None, env);
    OutcomeAdds(h, Some(e), None, env);
  }

  /** One action moves on, the chain at most grows, and what it sends fits. */
  lemma MovedFits(w: World, w': World, id: Id, action: Action)
    requires Fits(w) && w.host.chain <= w'.host.chain && w'.session == w.session
    requires w'.actions == w.actions[id := action] && SendsFit(w'.sends, w'.actions) && EndFits(action.stage)
    requires Ran(action.stage) ==> AttemptIn(w'.host.chain, w.session, id)
    ensures Fits(w')
  {
    RunsStaySealed(w, w', id, action);
  }

  lemma AttemptStays(chain: seq<Record>, chain': seq<Record>, session: SessionId, id: Id)
    requires AttemptIn(chain, session, id) && chain <= chain'
    ensures AttemptIn(chain', session, id)
  {
  }

  lemma RunsStaySealed(w: World, w': World, id: Id, action: Action)
    requires RunsAreSealed(w) && w.host.chain <= w'.host.chain && w'.session == w.session
    requires w'.actions == w.actions[id := action]
    requires Ran(action.stage) ==> AttemptIn(w'.host.chain, w.session, id)
    ensures RunsAreSealed(w')
  {
    forall x | x in w'.actions && Ran(w'.actions[x].stage)
      ensures AttemptIn(w'.host.chain, w'.session, x)
    {
      if x != id {
        AttemptStays(w.host.chain, w'.host.chain, w.session, x);
      }
    }
  }

  lemma AttemptShape(w: World, step: ToolStep, e: Event)
    requires step.Act?
    ensures var w' := SendAttempt(w, step, e);
            var (h', response) := HandleAttempt(w.host, e, None, false, step.env);
            && w'.host == h' && w'.session == w.session && w'.sends == w.sends + [e]
            && w'.actions == w.actions[step.id := Action(step.signer, StageAfter(response, step.judged))]
  {
  }

  lemma SendAttemptKeeps(w: World, step: ToolStep, e: Event)
    requires Audited(w) && step.Act? && step.id !in w.actions && e.id == step.id && e.session == w.session && e.outcome.Attempted?
    ensures Audited(SendAttempt(w, step, e))
  {
    var (h', response) := HandleAttempt(w.host, e, None, false, step.env);
    SentAttempt(w.host, e, step.env);
    AttemptShape(w, step, e);
    SentFits(w, SendAttempt(w, step, e), e, Action(step.signer, StageAfter(response, step.judged)));
  }

  lemma SentFits(w: World, w': World, e: Event, action: Action)
    requires Fits(w) && w.host.chain <= w'.host.chain && w'.session == w.session
    requires w'.sends == w.sends + [e] && w'.actions == w.actions[e.id := action] && EndFits(action.stage)
    requires SentOf(action.stage) == (if e.id in w.actions then SentOf(w.actions[e.id].stage) else []) + [e.outcome]
    requires Ran(action.stage) ==> AttemptIn(w'.host.chain, w.session, e.id)
    ensures Fits(w')
  {
    SendsFitWith(w.sends, w.actions, e, action);
    MovedFits(w, w', e.id, action);
  }

  lemma TakeActionKeeps(w: World, step: ToolStep)
    requires Audited(w) && step.Act?
    ensures Audited(TakeAction(w, step))
  {
    if step.id !in w.actions {
      if step.signs {
        SendAttemptKeeps(w, step, EventFor(w, step.id, Attempted, None, step.signer, step.body));
      } else {
        SilentFit(w.sends, w.actions, step.id, Action(step.signer, NeverSent));
        MovedFits(w, TakeAction(w, step), step.id, Action(step.signer, NeverSent));
      }
    }
  }

  lemma EndingFits(w: World, step: ToolStep)
    requires step.Finish? && Owes(w, step.id)
    ensures EndFits(Ended(w, step).actions[step.id].stage)
  {
    SuccessIsMarked(step.marks);
  }

  lemma OutcomeShape(w: World, step: ToolStep, e: Event)
    requires step.Finish? && Owes(w, step.id)
    ensures var w' := SendOutcome(w, step, e);
            && w'.host == HandleOutcome(w.host, Some(e), None, step.env).0 && w'.session == w.session
            && w'.sends == w.sends + [e] && w'.actions == Ended(w, step).actions
  {
  }

  lemma SendOutcomeKeeps(w: World, step: ToolStep, e: Event)
    requires Audited(w) && step.Finish? && step.signs && Owes(w, step.id) && e == OwedEvent(w, step)
    ensures Audited(SendOutcome(w, step, e))
  {
    SentOutcome(w.host, e, step.env);
    OutcomeShape(w, step, e);
    EndingFits(w, step);
    EndedIs(w, step);
    ConcludedFits(w, SendOutcome(w, step, e), e, Ended(w, step).actions[step.id]);
  }

  lemma EndedIs(w: World, step: ToolStep)
    requires step.Finish? && Owes(w, step.id)
    ensures var action := Ended(w, step).actions[step.id];
            && Ended(w, step).actions == w.actions[step.id := action] && action.signer == w.actions[step.id].signer
            && action.stage.Over? && action.stage.sent == step.signs && action.stage.ran == w.actions[step.id].stage.Running?
            && action.stage.outcome == OwedEvent(w, step).outcome
  {
  }

  lemma ConcludedFits(w: World, w': World, e: Event, action: Action)
    requires Fits(w) && Owes(w, e.id) && action.stage.Over? && action.stage.sent && EndFits(action.stage)
    requires action.stage.outcome == e.outcome && action.stage.ran == w.actions[e.id].stage.Running?
    requires w.host.chain <= w'.host.chain && w'.session == w.session
    requires w'.sends == w.sends + [e] && w'.actions == w.actions[e.id := action]
    ensures Fits(w')
  {
    if w.actions[e.id].stage.Running? {
      AttemptStays(w.host.chain, w'.host.chain, w.session, e.id);
    }
    SentFits(w, w', e, action);
  }

  lemma FinishActionKeeps(w: World, step: ToolStep)
    requires Audited(w) && step.Finish?
    ensures Audited(FinishAction(w, step))
  {
    if Owes(w, step.id) {
      if step.signs {
        SendOutcomeKeeps(w, step, OwedEvent(w, step));
      } else {
        var action := Ended(w, step).actions[step.id];
        EndingFits(w, step);
        SilentFit(w.sends, w.actions, step.id, action);
        MovedFits(w, Ended(w, step), step.id, action);
      }
    }
  }

  lemma ElsewhereKeeps(w: World, op: Op)
    requires Audited(w)
    ensures Audited(Take(w, Elsewhere(op)))
  {
    StepKeeps(w.host, op);
    StepAdds(w.host, op);
  }

  lemma TakeKeeps(w: World, step: ToolStep)
    requires Audited(w)
    ensures Audited(Take(w, step))
  {
    match step
    case Act(_, _, _, _, _, _) => TakeActionKeeps(w, step);
    case Finish(_, _, _, _, _) => FinishActionKeeps(w, step);
    case Elsewhere(op) => ElsewhereKeeps(w, op);
  }

  lemma BeginsAudited(h: Host, session: SessionId)
    requires Invariant(h)
    ensures Audited(Begin(h, session))
  {
    OpenKeeps(h, session);
  }

  lemma {:induction false} AlwaysAudited(h: Host, session: SessionId, steps: seq<ToolStep>)
    requires Invariant(h)
    ensures Audited(TakeAll(Begin(h, session), steps))
  {
    if steps == [] {
      BeginsAudited(h, session);
    } else {
      AlwaysAudited(h, session, steps[..|steps| - 1]);
      TakeKeeps(TakeAll(Begin(h, session), steps[..|steps| - 1]), steps[|steps| - 1]);
    }
  }

  /**
   * Audit before act. However the actions of a session, signed or not, and whatever else uses the host interleave, and
   * whatever the host's collaborators do: a body was entered only where its attempt is sealed, and exactly those
   * operations that are over with their outcome sent have sent an attempt and then one terminal outcome, that one. It
   * is a success exactly where the body ran and was marked so and never marked failed, and an abort where it never ran.
   */
  lemma AuditBeforeAct(h: Host, session: SessionId, steps: seq<ToolStep>, id: Id)
    requires Invariant(h)
    ensures var w := TakeAll(Begin(h, session), steps);
            && (id in w.actions && Ran(w.actions[id].stage) ==> AttemptIn(w.host.chain, session, id))
            && OutcomesOf(w.sends, id) == (if id in w.actions then SentOf(w.actions[id].stage) else [])
            && (id in w.actions ==> EndFits(w.actions[id].stage))
    ensures var w := TakeAll(Begin(h, session), steps);
            forall outcome: Outcome :: !outcome.Attempted? ==>
              (OutcomesOf(w.sends, id) == [Attempted, outcome] <==>
               id in w.actions && w.actions[id].stage.Over? && w.actions[id].stage.sent && w.actions[id].stage.outcome == outcome)
  {
    AlwaysAudited(h, session, steps);
    SessionStays(h, session, steps);
    var w := TakeAll(Begin(h, session), steps);
    AuditedTells(w, id);
    forall outcome: Outcome | !outcome.Attempted?
      ensures OutcomesOf(w.sends, id) == [Attempted, outcome] <==>
                id in w.actions && w.actions[id].stage.Over? && w.actions[id].stage.sent && w.actions[id].stage.outcome == outcome
    {
      if id in w.actions {
        PairTells(w.actions[id].stage, outcome);
      }
    }
  }

  lemma AuditedTells(w: World, id: Id)
    requires Fits(w)
    ensures id in w.actions && Ran(w.actions[id].stage) ==> AttemptIn(w.host.chain, w.session, id)
    ensures OutcomesOf(w.sends, id) == if id in w.actions then SentOf(w.actions[id].stage) else []
    ensures id in w.actions ==> EndFits(w.actions[id].stage)
  {
  }

  lemma PairTells(stage: Stage, outcome: Outcome)
    requires !outcome.Attempted?
    ensures SentOf(stage) == [Attempted, outcome] <==> stage.Over? && stage.sent && stage.outcome == outcome
  {
    assert SentOf(stage) == [Attempted, outcome] ==> |SentOf(stage)| == 2 && SentOf(stage)[1] == outcome;
  }

  lemma {:induction false} SessionStays(h: Host, session: SessionId, steps: seq<ToolStep>)
    ensures TakeAll(Begin(h, session), steps).session == session
  {
    if steps != [] {
      SessionStays(h, session, steps[..|steps| - 1]);
    }
  }

  /** An action is never taken back: once over it stays so, with the outcome it ended with. */
  lemma OverStays(w: World, step: ToolStep, id: Id)
    requires id in w.actions && (w.actions[id].stage.Over? || w.actions[id].stage.NeverSent?)
    ensures id in Take(w, step).actions && Take(w, step).actions[id] == w.actions[id]
  {
  }

  lemma {:induction false} OverForGood(w: World, steps: seq<ToolStep>, n: nat, id: Id)
    requires n <= |steps| && id in TakeAll(w, steps[..n]).actions && TakeAll(w, steps[..n]).actions[id].stage.Over?
    ensures id in TakeAll(w, steps).actions && TakeAll(w, steps).actions[id] == TakeAll(w, steps[..n]).actions[id]
  {
    if n < |steps| {
      var last := |steps| - 1;
      assert steps[..last][..n] == steps[..n];
      OverForGood(w, steps[..last], n, id);
      OverStays(TakeAll(w, steps[..last]), steps[last], id);
    } else {
      assert steps[..n] == steps;
    }
  }

  lemma FinishEnds(w: World, step: ToolStep)
    requires step.Finish? && Owes(w, step.id)
    ensures step.id in Take(w, step).actions && Take(w, step).actions[step.id] == Ended(w, step).actions[step.id]
  {
  }

  /**
   * An attempt that was sent is still owed its outcome until its own finish; from then on, to the end of the run, what
   * was sent of it is the attempt and that one outcome, or the attempt alone where the outcome could not be built.
   */
  lemma EveryAttemptEnds(h: Host, session: SessionId, steps: seq<ToolStep>, n: nat)
    requires Invariant(h) && n < |steps| && steps[n].Finish? && Owes(TakeAll(Begin(h, session), steps[..n]), steps[n].id)
    ensures var owed := OwedOutcome(TakeAll(Begin(h, session), steps[..n]).actions[steps[n].id].stage, steps[n].marks).0;
            OutcomesOf(TakeAll(Begin(h, session), steps).sends, steps[n].id) ==
              if steps[n].signs then [Attempted, owed] else [Attempted]
  {
    var w, id := Begin(h, session), steps[n].id;
    assert steps[..n + 1][..n] == steps[..n];
    FinishEnds(TakeAll(w, steps[..n]), steps[n]);
    OverForGood(w, steps, n + 1, id);
    AuditBeforeAct(h, session, steps, id);
  }

  /** An honest host passes the Polluted Stop: what it accepted hashes to what it answered. */
  lemma HonestHostPassesPollutedStop(h: Host, e: Event, expected: Option<SessionId>, env: Env)
    requires Invariant(h)
    ensures var (h', response) := HandleAttempt(h, e, expected, false, env);
            response.Accept? ==>
              response.recordHash == Digest(e, response.position, response.hostTs, response.previousHash)
  {
    var (h', response) := HandleAttempt(h, e, expected, false, env);
    AttemptKeeps(h, e, expected, false, env);
    AcceptNames(h, e, expected, false, env);
    if response.Accept? {
      var i := response.position;
      assert LinkedAt(h'.chain, i);
    }
  }
}
