/** A pending attempt is settled once, by whatever comes first, and what a handler was told never changes. */
module SeamSettling {
  import opened Records
  import opened Ordering
  import opened Seams
  import opened SeamInvariants
  import opened SeamSteps
  import opened SeamRuns

  /** Attempts settle, none by a peer, and wire requests are only ever dropped. */
  ghost predicate Quiet(t: Seam, t': Seam) {
    && Stable(t.pendings, t'.pendings) && NoNewPeer(t.pendings, t'.pendings)
    && forall w :: w in t'.wires ==> w in t.wires && t'.wires[w] == t.wires[w]
  }

  /** What a peer's answer settled by now it had settled before. */
  ghost predicate NoNewPeer(p: seq<Pending>, p': seq<Pending>) {
    forall i :: 0 <= i < |p'| && p'[i].once.Settled? && p'[i].once.how.ByPeer? ==> i < |p| && p[i].once == p'[i].once
  }

  lemma QuietThen(a: Seam, b: Seam, c: Seam)
    requires Quiet(a, b) && Quiet(b, c)
    ensures Quiet(a, c)
  {
  }

  lemma StableThen(a: seq<Pending>, b: seq<Pending>, c: seq<Pending>)
    requires Stable(a, b) && Stable(b, c)
    ensures Stable(a, c)
  {
  }

  lemma UnanswerSettles(pendings: seq<Pending>, refs: set<PendingRef>, how: How)
    requires !how.ByPeer?
    ensures Stable(pendings, Unanswer(pendings, refs, how)) && NoNewPeer(pendings, Unanswer(pendings, refs, how))
  {
  }

  lemma ReleaseSettles(t: Seam, c: CallRef, final: bool)
    requires c < |t.calls|
    ensures Quiet(t, Release(t, c, final))
  {
    if Tracks(t, c) {
      UnanswerSettles(t.pendings, StillWaiting(t, c), ByEnd);
      if t.calls[c].session.Some? {
        LeavingIsQuiet(Dropped(t, c), t.calls[c].session.value, final);
      }
    }
  }

  lemma AbandonSettles(t: Seam, c: CallRef)
    requires c < |t.calls|
    ensures Quiet(t, Abandon(t, c))
  {
    ReleaseSettles(t.(calls := t.calls[c := t.calls[c].(cancelled := true)]), c, true);
  }

  lemma {:induction false} EvictSettles(t: Seam, i: nat)
    ensures Quiet(t, EvictConcluded(t, i))
    decreases |t.concluded| - i
  {
    if |t.concluded| > MAX_IDLE_SESSIONS && i < |t.concluded| && t.concluded[i] < |t.calls| {
      var t' := Abandon(t, t.concluded[i]);
      AbandonSettles(t, t.concluded[i]);
      if |t'.concluded| <= |t.concluded| {
        var j := if |t'.concluded| < |t.concluded| then i else i + 1;
        EvictSettles(t', j);
        QuietThen(t, t', EvictConcluded(t', j));
      }
    }
  }

  lemma KeepSettles(t: Seam, c: CallRef, final: Final)
    requires c < |t.calls|
    ensures Quiet(t, KeepConcluded(t, c, final))
  {
    var call := t.calls[c];
    EvictSettles(t.(calls := t.calls[c := call.(held := Some(final))],
                    concluded := DroppingHeld(t.calls, t.concluded, call.original.id) + [c]), 0);
  }

  lemma ConcludeSettles(t: Seam, c: CallRef, final: Final)
    requires c < |t.calls|
    ensures Quiet(t, ConcludeCall(t, c, final))
  {
    var call := t.calls[c];
    if final.kind.Failure? && call.buffered != [] {
      KeepSettles(EndRound(t, c), c, final);
    } else {
      ReleaseSettles(t.(calls := t.calls[c := call.(buffered := [])],
                        sent := if call.current.None? then t.sent
                                else t.sent + [FinalOut(call.current.value, c, final, call.buffered)]),
                     c, !final.kind.Asks?);
    }
  }

  lemma FinishSettles(t: Seam, c: CallRef, final: Final)
    requires c < |t.calls|
    ensures Quiet(t, FinishCall(t, c, final))
  {
    var marked := Marked(t, c);
    UnanswerSettles(t.pendings, t.calls[c].nextAwaiting.Values, ByEnd);
    if t.calls[c].round.Some? {
      KeepSettles(marked, c, final);
      QuietThen(t, marked, KeepConcluded(marked, c, final));
    } else {
      ConcludeSettles(marked, c, final);
      QuietThen(t, marked, ConcludeCall(marked, c, final));
    }
  }

  lemma AcceptSettles(t: Seam, c: CallRef, request: Request, named: Option<SessionId>, responses: map<Id, Answer>)
    requires c < |t.calls| && t.calls[c].round.Some?
    ensures Quiet(t, AcceptRetry(t, c, request, named, responses))
  {
    var resumed := Resume(t, c, request, named, responses);
    var call := resumed.calls[c];
    SettleRoundIsStable(t.pendings, t.calls[c].round.value, Heard(t.calls[c], named, responses));
    if call.held.Some? {
      var unheld := resumed.(calls := resumed.calls[c := call.(held := None)],
                             concluded := DroppingHeld(t.calls, t.concluded, call.original.id));
      ConcludeSettles(unheld, c, call.held.value);
      QuietThen(t, resumed, ConcludeCall(unheld, c, call.held.value));
    }
  }

  lemma {:induction false} AbandonAllSettles(t: Seam, ids: seq<RequestId>)
    ensures Quiet(t, AbandonAll(t, ids))
  {
    if ids != [] {
      AbandonAllSettles(t, ids[..|ids| - 1]);
      var before, id := AbandonAll(t, ids[..|ids| - 1]), ids[|ids| - 1];
      if id in before.tracked && before.tracked[id] < |before.calls| {
        AbandonSettles(before, before.tracked[id]);
        QuietThen(t, before, Abandon(before, before.tracked[id]));
      }
    }
  }

  lemma LoseSettles(t: Seam)
    ensures Quiet(t, Lose(t))
  {
    var left := AbandonAll(t, Listed(t.tracked.Keys));
    AbandonAllSettles(t, Listed(t.tracked.Keys));
    UnanswerSettles(left.pendings, left.wires.Values, ByEnd);
    QuietThen(t, left, Lose(t));
  }

  lemma RetrySettles(t: Seam, request: Request, token: Token, named: Option<SessionId>, responses: map<Id, Answer>)
    ensures Quiet(t, TryToken(t, request, token, named, responses))
  {
    if Resumes(t, token) {
      AcceptSettles(t, t.rounds[token], request, named, responses);
    }
  }

  lemma CancelSettles(t: Seam, id: RequestId, c: CallRef)
    requires c < |t.calls|
    ensures Quiet(t, Cancel(t, id, c))
  {
    AbandonSettles(t, c);
  }

  lemma OutboundSettles(t: Seam, c: CallRef, final: Final)
    requires c < |t.calls|
    ensures Quiet(t, Outbound(t, c, final))
  {
    var id := t.calls[c].original.id;
    if Serves(t, id) {
      FinishSettles(t, t.tracked[id], final);
      ReleaseSettles(LegacyGone(t, t.tracked[id], final), t.tracked[id], !final.kind.Asks?);
    }
  }

  lemma QuietStep(t: Seam, op: Op)
    requires !op.EmitsAttempt? && !op.PeerAnswers?
    ensures Quiet(t, Step(t, op))
  {
    match op
    case Arrives(id, modern, session) => TakingIsQuiet(t, id, modern, session);
    case Retries(id, token, named, responses) =>
      RetryTriesToken(t, id, token, named, responses);
      RetrySettles(t.(arrivals := t.arrivals + 1), Request(id, t.arrivals), token, named, responses);
    case EmitsOutcome(c, e) => if c < |t.calls| { OutcomeIsQuiet(t, c, e); }
    case RoundTimer(c) => if c < |t.calls| { TimerSettles(t, c); }
    case AttemptTimeout(p) => if p < |t.pendings| { TimeOutSettles(t, p); }
    case HandlerAnswers(c, final) => if c < |t.calls| { WriteSettles(t, c, final); }
    case Cancels(id, c) => if c < |t.calls| { CancelSettles(t, id, c); }
    case Forgets(id) =>
    case ConnectionLost => LoseSettles(t);
  }

  lemma OutcomeIsQuiet(t: Seam, c: CallRef, e: Event)
    requires c < |t.calls|
    ensures Quiet(t, EmitOutcome(t, c, e))
  {
  }

  lemma TimeOutSettles(t: Seam, p: PendingRef)
    requires p < |t.pendings|
    ensures Quiet(t, TimeOut(t, p))
  {
  }

  lemma WriteSettles(t: Seam, c: CallRef, final: Final)
    requires c < |t.calls|
    ensures Quiet(t, WriteFinal(t, c, final))
  {
    OutboundSettles(Noted(t, c), c, final);
  }

  lemma TakingIsQuiet(t: Seam, id: RequestId, modern: bool, session: Option<SessionId>)
    ensures Quiet(t, TakeCall(t, id, modern, session))
  {
  }

  lemma TimerSettles(t: Seam, c: CallRef)
    requires c < |t.calls|
    ensures Quiet(t, TimeRound(t, c))
  {
  }

  lemma StepSettles(t: Seam, op: Op)
    ensures Stable(t.pendings, Step(t, op).pendings)
  {
    if !op.EmitsAttempt? && !op.PeerAnswers? {
      QuietStep(t, op);
    }
  }

  /** Whatever an attempt is once settled with, it stays settled with. */
  lemma {:induction false} SettlesOnce(t: Seam, ops: seq<Op>)
    ensures Stable(t.pendings, Run(t, ops).pendings)
  {
    if ops != [] {
      var front := ops[..|ops| - 1];
      SettlesOnce(t, front);
      StepSettles(Run(t, front), ops[|ops| - 1]);
      StableThen(t.pendings, Run(t, front).pendings, Run(t, ops).pendings);
    }
  }

  // ---------------------------------------------------------------------------------------------------
  // Who a peer may answer: only the attempts of calls under the older binding go out as requests of their own.

  ghost predicate OlderAttempt(t: Seam, p: PendingRef) {
    p < |t.pendings| && t.pendings[p].call < |t.calls| && !t.calls[t.pendings[p].call].modern
  }

  ghost predicate PeersOk(t: Seam) {
    && (forall w :: w in t.wires ==> OlderAttempt(t, t.wires[w]))
    && (forall i :: 0 <= i < |t.pendings| && t.pendings[i].once.Settled? && t.pendings[i].once.how.ByPeer? ==> OlderAttempt(t, i))
  }

  ghost predicate SameBindings(t: Seam, t': Seam) {
    |t.calls| <= |t'.calls| && forall c :: 0 <= c < |t.calls| ==> t'.calls[c].modern == t.calls[c].modern
  }

  lemma QuietKeepsPeers(t: Seam, t': Seam)
    requires PeersOk(t) && Quiet(t, t') && SameBindings(t, t')
    ensures PeersOk(t')
  {
  }

  lemma StepKeepsBindings(t: Seam, op: Op)
    requires Structured(t)
    ensures SameBindings(t, Step(t, op))
  {
    if op.HandlerAnswers? {
      if op.call < |t.calls| {
        WriteKeepsBindings(t, op.call, op.final);
      }
    } else if !op.Arrives? {
      StepIsSteady(t, op);
      SteadyBindings(t, Step(t, op), t.arrivals, None);
    }
  }

  lemma WriteKeepsBindings(t: Seam, c: CallRef, final: Final)
    requires Structured(t) && c < |t.calls|
    ensures SameBindings(t, WriteFinal(t, c, final))
  {
    var noted := Noted(t, c);
    var id := noted.calls[c].original.id;
    NotedStructured(t, c);
    if id !in noted.cancelledIds && Serves(noted, id) {
      FinishingIsSteady(noted, c, final, t.arrivals);
      SteadyBindings(noted, Outbound(noted, c, final), t.arrivals, Some(noted.tracked[id]));
    }
  }

  lemma SteadyBindings(t: Seam, t': Seam, since: nat, done: Option<CallRef>)
    requires Steady(t, t', since, done)
    ensures SameBindings(t, t')
  {
  }

  lemma StepKeepsPeers(t: Seam, op: Op)
    requires Structured(t) && PeersOk(t)
    ensures PeersOk(Step(t, op))
  {
    if !op.EmitsAttempt? && !op.PeerAnswers? {
      QuietStep(t, op);
      StepKeepsBindings(t, op);
      QuietKeepsPeers(t, Step(t, op));
    } else if op.PeerAnswers? {
      PeerKeepsPeers(t, op.wire, op.answer);
    } else if op.call < |t.calls| {
      AttemptKeepsPeers(t, op.call, op.event);
    }
  }

  lemma PeerKeepsPeers(t: Seam, wire: WireId, answer: Answer)
    requires PeersOk(t)
    ensures PeersOk(PeerAnswer(t, wire, answer))
  {
  }

  lemma AttemptKeepsPeers(t: Seam, c: CallRef, e: Event)
    requires PeersOk(t) && c < |t.calls|
    ensures PeersOk(EmitAttempt(t, c, e))
  {
  }

  lemma {:induction false} RunKeepsPeers(ops: seq<Op>)
    ensures PeersOk(Run(EMPTY, ops))
  {
    if ops != [] {
      RunKeepsPeers(ops[..|ops| - 1]);
      RunKeeps(ops[..|ops| - 1]);
      StepKeepsPeers(Run(EMPTY, ops[..|ops| - 1]), ops[|ops| - 1]);
    }
  }

  /**
   * An attempt of a call served in rounds is accepted only by the retry that closed the very round it went out in, and
   * only if that retry named the call's session.
   */
  lemma AcceptComesFromItsOwnRetry(ops: seq<Op>, p: PendingRef)
    requires p < |Run(EMPTY, ops).pendings|
    requires var t := Run(EMPTY, ops);
             var pending := t.pendings[p];
             pending.once.Settled? && pending.once.answer.Accepted? && pending.call < |t.calls| && t.calls[pending.call].modern
    ensures var t := Run(EMPTY, ops);
            var pending := t.pendings[p];
            && pending.once.how.ByRetry?
            && RetriedInSession(t.resumed, pending.call, pending.once.how.token)
            && Carried(t.sent, pending.call, pending.once.how.token, pending.id)
  {
    RunKeeps(ops);
    RunKeepsPeers(ops);
    assert Justified(Run(EMPTY, ops), Run(EMPTY, ops).pendings[p]);
  }

  // ---------------------------------------------------------------------------------------------------
  // When a call may be closed.

  /**
   * A call that is neither busy nor holds anything back has delivered all it owes: every event its handler emitted,
   * less the attempts unsent when it finished.
   */
  lemma IdleCallHasDelivered(t: Seam, id: RequestId)
    requires Good(t) && Structured(t) && id in t.tracked && !Busy(t, id) && !Undelivered(t, id)
    ensures var c := t.tracked[id];
            && !t.calls[c].cancelled && t.calls[c].cut <= |t.calls[c].emitted|
            && Delivered(t.sent, c) == Owed(t.calls[c])
  {
    var c := t.tracked[id];
    assert CallOk(t, c) && !Loose(t, c);
    assert t.calls[c].buffered == [];
    assert Delivered(t.sent, c) + [] == Delivered(t.sent, c);
  }
}
