/**
 * Runs of the tool's side: conservation of a call's events, and at most one of everything that may happen once.
 */
module SeamRuns {
  import opened Records
  import opened Ordering
  import opened Seams
  import opened SeamInvariants
  import opened SeamSteps

  // ---------------------------------------------------------------------------------------------------
  // Arrivals.

  lemma ArrivedKeeps(t: Seam)
    requires Good(t)
    ensures Good(t.(arrivals := t.arrivals + 1))
  {
    var t' := t.(arrivals := t.arrivals + 1);
    forall c | 0 <= c < |t.calls|
      ensures CallOk(t', c)
    {
      assert CallOk(t, c);
      RoundStaysOk(t, t', t.calls[c], c);
    }
    PendingsStayOk(t, t');
  }

  /** A request that arrived just now: nobody has it open, and nothing has answered it. */
  ghost predicate JustArrived(t: Seam, request: Request) {
    && request.arrival < t.arrivals && !Replied(t.sent, request.arrival)
    && forall c :: 0 <= c < |t.calls| && t.calls[c].current.Some? ==> t.calls[c].current.value.arrival != request.arrival
  }

  lemma ArrivedJustNow(t: Seam, id: RequestId)
    requires Good(t)
    ensures JustArrived(t.(arrivals := t.arrivals + 1), Request(id, t.arrivals))
  {
    forall c | 0 <= c < |t.calls| && t.calls[c].current.Some?
      ensures t.calls[c].current.value.arrival != t.arrivals
    {
      assert CallOk(t, c);
    }
  }

  // ---------------------------------------------------------------------------------------------------
  // Retries.

  lemma SettleRoundIsStable(pendings: seq<Pending>, round: Round, responses: map<Id, Answer>)
    ensures Stable(pendings, SettleRound(pendings, round, responses))
    ensures forall i :: 0 <= i < |pendings| ==> SettleRound(pendings, round, responses)[i].call == pendings[i].call
  {
  }

  lemma ResumeIsOk(t: Seam, c: CallRef, request: Request, named: Option<SessionId>, responses: map<Id, Answer>)
    requires c < |t.calls| && CallOk(t, c) && t.calls[c].round.Some? && JustArrived(t, request)
    ensures CallOk(Resume(t, c, request, named, responses), c) && !FinalSent(t.sent, c)
  {
  }

  lemma ResumeTouches(t: Seam, c: CallRef, request: Request, named: Option<SessionId>, responses: map<Id, Answer>)
    requires c < |t.calls| && CallOk(t, c) && t.calls[c].round.Some?
    ensures Touches(t, Resume(t, c, request, named, responses), c)
  {
  }

  lemma ResumedPendings(t: Seam, c: CallRef, request: Request, named: Option<SessionId>, responses: map<Id, Answer>)
    requires PendingsOk(t) && c < |t.calls| && CallOk(t, c) && t.calls[c].round.Some?
    ensures PendingsOk(Resume(t, c, request, named, responses))
  {
    var t' := Resume(t, c, request, named, responses);
    var round := t.calls[c].round.value;
    assert t'.resumed[|t.resumed|].token == round.token;
    assert RoundOk(t, t.calls[c], c);
    forall i | 0 <= i < |t'.pendings|
      ensures Justified(t', t'.pendings[i])
    {
      JustifiedStays(t, t', t.pendings[i]);
      if Awaited(t.pendings, round.awaiting, i) {
        assert Awaiting(t.pendings, t.pendings[i].id, i, c);
      }
    }
  }

  lemma ResumedTokens(t: Seam, c: CallRef, request: Request, named: Option<SessionId>, responses: map<Id, Answer>)
    requires ResumedOk(t) && c < |t.calls| && CallOk(t, c) && t.calls[c].round.Some?
    ensures ResumedOk(Resume(t, c, request, named, responses))
  {
  }

  lemma ResumeKeeps(t: Seam, c: CallRef, request: Request, named: Option<SessionId>, responses: map<Id, Answer>)
    requires Good(t) && c < |t.calls| && t.calls[c].round.Some? && JustArrived(t, request)
    ensures Good(Resume(t, c, request, named, responses)) && !FinalSent(t.sent, c)
  {
    var t' := Resume(t, c, request, named, responses);
    assert CallOk(t, c);
    ResumeIsOk(t, c, request, named, responses);
    ResumeTouches(t, c, request, named, responses);
    OthersStayOk(t, t', c);
    ResumedPendings(t, c, request, named, responses);
    ResumedTokens(t, c, request, named, responses);
    ResumedRounds(t, c, request, named, responses);
  }

  lemma ResumedRounds(t: Seam, c: CallRef, request: Request, named: Option<SessionId>, responses: map<Id, Answer>)
    requires RoundsOk(t) && c < |t.calls| && CallOk(t, c) && t.calls[c].round.Some? && JustArrived(t, request)
    requires RequestsDistinct(t.calls)
    ensures RoundsOk(Resume(t, c, request, named, responses))
    ensures RequestsDistinct(Resume(t, c, request, named, responses).calls)
  {
  }

  lemma AcceptKeeps(t: Seam, c: CallRef, request: Request, named: Option<SessionId>, responses: map<Id, Answer>)
    requires Good(t) && c < |t.calls| && t.calls[c].round.Some? && JustArrived(t, request) && HeldOk(t)
    ensures Good(AcceptRetry(t, c, request, named, responses))
  {
    var resumed := Resume(t, c, request, named, responses);
    var call := resumed.calls[c];
    ResumeKeeps(t, c, request, named, responses);
    if call.held.Some? {
      UnseenKeeps(resumed, c, call.(held := None));
      var unheld := resumed.(calls := resumed.calls[c := call.(held := None)]);
      var left := unheld.(concluded := DroppingHeld(t.calls, t.concluded, call.original.id));
      SameCoreKeeps(unheld, left);
      ConcludeKeeps(left, c, call.held.value);
    } else if !call.finished && CarriesAttempt(call.buffered) {
      UnseenKeeps(resumed, c, call.(scheduled := true));
    }
  }

  /** Only a finished call holds a final frame. */
  ghost predicate HeldOk(t: Seam) {
    forall c :: 0 <= c < |t.calls| && t.calls[c].held.Some? ==> t.calls[c].finished
  }

  /** A frame about no call, answering a request that just arrived. */
  lemma RefusedKeeps(t: Seam, f: Frame)
    requires Good(t) && About(f).None? && (Replies(f).Some? ==> JustArrived(t, Replies(f).value))
    ensures Good(t.(sent := t.sent + [f]))
  {
    var t' := t.(sent := t.sent + [f]);
    forall c | 0 <= c < |t.calls|
      ensures CallOk(t', c)
    {
      assert CallOk(t, c);
      RefusedIsOk(t, f, c);
    }
    PendingsStayOk(t, t');
    SentStaysOk(t.sent, f, t.arrivals, |t.calls|);
    ResumedStaysOk(t, t', f);
  }

  lemma RefusedIsOk(t: Seam, f: Frame, c: CallRef)
    requires c < |t.calls| && CallOk(t, c)
    requires About(f).None? && (Replies(f).Some? ==> JustArrived(t, Replies(f).value))
    ensures CallOk(t.(sent := t.sent + [f]), c)
  {
    var call, t' := t.calls[c], t.(sent := t.sent + [f]);
    SentOne(t.sent, f, c);
    FinalWith(t.sent, f, c);
    RoundStaysOk(t, t', call, c);
    if call.current.Some? {
      RepliedWith(t.sent, f, call.current.value.arrival);
    }
  }

  lemma RetryTriesToken(t: Seam, id: RequestId, token: Token, named: Option<SessionId>, responses: map<Id, Answer>)
    ensures TakeRetry(t, id, token, named, responses) ==
              TryToken(t.(arrivals := t.arrivals + 1), Request(id, t.arrivals), token, named, responses)
  {
  }

  lemma TryTokenKeeps(t: Seam, request: Request, token: Token, named: Option<SessionId>, responses: map<Id, Answer>)
    requires Good(t) && HeldOk(t) && JustArrived(t, request)
    ensures Good(TryToken(t, request, token, named, responses))
  {
    if token in t.rounds {
      AcceptKeeps(t, t.rounds[token], request, named, responses);
    } else {
      assert t.rounds - {token} == t.rounds;
      RefusedKeeps(t, NoOpenRound(request));
    }
  }

  lemma RetryKeeps(t: Seam, id: RequestId, token: Token, named: Option<SessionId>, responses: map<Id, Answer>)
    requires Good(t) && HeldOk(t)
    ensures Good(TakeRetry(t, id, token, named, responses))
  {
    ArrivedKeeps(t);
    ArrivedJustNow(t, id);
    RetryTriesToken(t, id, token, named, responses);
    TryTokenKeeps(t.(arrivals := t.arrivals + 1), Request(id, t.arrivals), token, named, responses);
  }

  // ---------------------------------------------------------------------------------------------------
  // New calls.

  lemma {:induction false} NothingDelivered(sent: seq<Frame>, arrivals: nat, calls: nat)
    requires SentOk(sent, arrivals, calls)
    ensures Delivered(sent, calls) == [] && !FinalSent(sent, calls)
  {
    if sent != [] {
      var front := sent[..|sent| - 1];
      assert forall i :: 0 <= i < |front| ==> front[i] == sent[i];
      NothingDelivered(front, arrivals, calls);
    }
  }

  lemma NewCallIsOk(t: Seam, t': Seam, call: Call)
    requires SentOk(t.sent, t.arrivals, |t.calls|) && t'.calls == t.calls + [call] && t'.sent == t.sent
    requires call.original == Request(call.original.id, t.arrivals) && call.current == Some(call.original)
    requires call.buffered == [] && call.nextAwaiting == map[] && call.round.None? && !call.finished
    requires call.emitted == [] && call.cut == 0 && t'.arrivals == t.arrivals + 1
    ensures CallOk(t', |t.calls|)
  {
    NothingDelivered(t.sent, t.arrivals, |t.calls|);
    assert !Replied(t.sent, t.arrivals);
  }

  lemma OldCallStaysOk(t: Seam, t': Seam, call: Call, c: CallRef)
    requires c < |t.calls| && CallOk(t, c) && t'.calls == t.calls + [call]
    requires t'.sent == t.sent && t'.pendings == t.pendings && t'.rounds == t.rounds && t'.minted == t.minted
    requires t'.arrivals == t.arrivals + 1 && t'.tracked == t.tracked[call.original.id := |t.calls|]
    ensures CallOk(t', c)
  {
  }

  lemma NewCallKeeps(t: Seam, t': Seam, call: Call)
    requires Good(t) && t'.calls == t.calls + [call]
    requires t'.sent == t.sent && t'.pendings == t.pendings && t'.rounds == t.rounds && t'.minted == t.minted
    requires t'.resumed == t.resumed
    requires t'.arrivals == t.arrivals + 1 && t'.tracked == t.tracked[call.original.id := |t.calls|]
    requires call.original == Request(call.original.id, t.arrivals) && call.current == Some(call.original)
    requires call.buffered == [] && call.nextAwaiting == map[] && call.round.None? && !call.finished
    requires call.emitted == [] && call.cut == 0
    ensures Good(t')
  {
    ArrivedJustNow(t, call.original.id);
    NewCallIsOk(t, t', call);
    forall c | 0 <= c < |t'.calls|
      ensures CallOk(t', c)
    {
      if c < |t.calls| {
        assert CallOk(t, c);
        OldCallStaysOk(t, t', call, c);
      }
    }
    PendingsStayOk(t, t');
    ResumedSameOk(t, t');
  }

  lemma TakeCallKeeps(t: Seam, id: RequestId, modern: bool, session: Option<SessionId>)
    requires Good(t)
    ensures Good(TakeCall(t, id, modern, session))
  {
    var t' := TakeCall(t, id, modern, session);
    NewCallKeeps(t, t', t'.calls[|t.calls|]);
  }

  // ---------------------------------------------------------------------------------------------------
  // Emissions.

  ghost predicate Emitted(call: Call, call': Call, e: Event) {
    && call' == call.(buffered := call.buffered + [e], emitted := call.emitted + [e], scheduled := call'.scheduled,
                      nextAwaiting := call'.nextAwaiting, accepted := call'.accepted)
  }

  lemma IdInMore(events: seq<Event>, e: Event, id: Id)
    ensures IdIn(events, id) ==> IdIn(events + [e], id)
    ensures IdIn(events + [e], e.id)
  {
    assert (events + [e])[|events|] == e;
    if IdIn(events, id) {
      var i :| 0 <= i < |events| && events[i].id == id;
      assert (events + [e])[i] == events[i];
    }
  }

  lemma EmittedIsOk(t: Seam, t': Seam, c: CallRef, e: Event)
    requires c < |t.calls| && CallOk(t, c) && !t.calls[c].finished && t.calls[c].modern
    requires |t'.calls| == |t.calls| && Emitted(t.calls[c], t'.calls[c], e)
    requires t' == t.(calls := t'.calls, pendings := t'.pendings) && Stable(t.pendings, t'.pendings)
    requires forall id :: id in t'.calls[c].nextAwaiting ==>
               (id in t.calls[c].nextAwaiting && t'.calls[c].nextAwaiting[id] == t.calls[c].nextAwaiting[id])
               || (id == e.id && Awaiting(t'.pendings, id, t'.calls[c].nextAwaiting[id], c))
    ensures CallOk(t', c)
  {
    var call, call' := t.calls[c], t'.calls[c];
    forall id | id in call'.nextAwaiting
      ensures Awaiting(t'.pendings, id, call'.nextAwaiting[id], c) && IdIn(call'.buffered, id)
    {
      IdInMore(call.buffered, e, id);
    }
    assert Delivered(t.sent, c) + call'.buffered == (Delivered(t.sent, c) + call.buffered) + [e];
    RoundStaysOk(t, t', call, c);
  }

  lemma EmittedKeeps(t: Seam, t': Seam, c: CallRef, e: Event)
    requires Good(t) && c < |t.calls| && !t.calls[c].finished && t.calls[c].modern
    requires |t'.calls| == |t.calls| && Emitted(t.calls[c], t'.calls[c], e) && t'.calls == t.calls[c := t'.calls[c]]
    requires t' == t.(calls := t'.calls, pendings := t'.pendings) && Stable(t.pendings, t'.pendings)
    requires NoNewAccept(t.pendings, t'.pendings) && forall i :: 0 <= i < |t'.pendings| ==> t'.pendings[i].call < |t.calls|
    requires forall id :: id in t'.calls[c].nextAwaiting ==>
               (id in t.calls[c].nextAwaiting && t'.calls[c].nextAwaiting[id] == t.calls[c].nextAwaiting[id])
               || (id == e.id && Awaiting(t'.pendings, id, t'.calls[c].nextAwaiting[id], c))
    ensures Good(t')
  {
    assert CallOk(t, c);
    EmittedIsOk(t, t', c, e);
    OthersStayOk(t, t', c);
    PendingsStayOk(t, t');
  }

  /** A frame of a call that carries no event of a round and answers nothing. */
  lemma AsideKeeps(t: Seam, c: CallRef, f: Frame)
    requires Good(t) && c < |t.calls| && About(f) == Some(c) && Replies(f).None?
    ensures Good(t.(sent := t.sent + [f]))
  {
    var t' := t.(sent := t.sent + [f]);
    assert CallOk(t, c);
    AsideIsOk(t, c, f);
    OthersStayOk(t, t', c);
    PendingsStayOk(t, t');
    SentStaysOk(t.sent, f, t.arrivals, |t.calls|);
    ResumedStaysOk(t, t', f);
  }

  lemma AsideIsOk(t: Seam, c: CallRef, f: Frame)
    requires c < |t.calls| && CallOk(t, c) && About(f) == Some(c) && Replies(f).None?
    ensures CallOk(t.(sent := t.sent + [f]), c)
  {
    var call, t' := t.calls[c], t.(sent := t.sent + [f]);
    SentOne(t.sent, f, c);
    FinalWith(t.sent, f, c);
    RoundStaysOk(t, t', call, c);
    if call.current.Some? {
      RepliedWith(t.sent, f, call.current.value.arrival);
    }
  }

  lemma AttemptKeeps(t: Seam, c: CallRef, e: Event)
    requires Good(t) && c < |t.calls|
    ensures Good(EmitAttempt(t, c, e))
  {
    var call := t.calls[c];
    if !call.finished && !call.cancelled {
      var waiting := t.(pendings := t.pendings + [Pending(e.id, c, Waiting)]);
      if call.modern {
        EmittedKeeps(t, EmitAttempt(t, c, e), c, e);
      } else {
        PendingsStayOk(t, waiting);
        GrownKeeps(t, waiting);
        AsideKeeps(waiting, c, AttemptOut(t.nextWire, c, e));
        var sent := waiting.(sent := t.sent + [AttemptOut(t.nextWire, c, e)]);
        SameCoreKeeps(sent, EmitAttempt(t, c, e));
      }
    }
  }

  lemma GrownKeeps(t: Seam, t': Seam)
    requires Good(t) && t' == t.(pendings := t'.pendings) && Stable(t.pendings, t'.pendings) && PendingsOk(t')
    ensures Good(t')
  {
    forall c | 0 <= c < |t'.calls|
      ensures CallOk(t', c)
    {
      assert CallOk(t, c);
      RoundStaysOk(t, t', t.calls[c], c);
    }
  }

  lemma OutcomeKeeps(t: Seam, c: CallRef, e: Event)
    requires Good(t) && c < |t.calls|
    ensures Good(EmitOutcome(t, c, e))
  {
    var call := t.calls[c];
    if !call.finished && !call.cancelled {
      if call.modern {
        EmittedKeeps(t, EmitOutcome(t, c, e), c, e);
      } else {
        AsideKeeps(t, c, OutcomeOut(c, e));
      }
    }
  }

  // ---------------------------------------------------------------------------------------------------
  // Timers, cancellation, loss.

  lemma TimeRoundKeeps(t: Seam, c: CallRef)
    requires Good(t) && c < |t.calls|
    ensures Good(TimeRound(t, c))
  {
    var call := t.calls[c];
    if call.scheduled {
      UnseenKeeps(t, c, call.(scheduled := false));
      if !call.finished && !call.cancelled {
        assert CallOk(t, c);
        EndRoundKeeps(t.(calls := t.calls[c := call.(scheduled := false)]), c);
      }
    }
  }

  lemma UnansweringKeeps(t: Seam, refs: set<PendingRef>, how: How)
    requires Good(t)
    ensures Good(t.(pendings := Unanswer(t.pendings, refs, how)))
  {
    UnanswerIsQuiet(t.pendings, refs, how);
    var t' := t.(pendings := Unanswer(t.pendings, refs, how));
    PendingsStayOk(t, t');
    GrownKeeps(t, t');
  }

  lemma PeerKeeps(t: Seam, wire: WireId, answer: Answer)
    requires Good(t)
    ensures Good(PeerAnswer(t, wire, answer))
  {
    if wire in t.wires {
      var t' := t.(pendings := PeerAnswer(t, wire, answer).pendings);
      forall i | 0 <= i < |t'.pendings|
        ensures Justified(t', t'.pendings[i])
      {
        JustifiedStays(t, t', t.pendings[i]);
      }
      GrownKeeps(t, t');
      SameCoreKeeps(t', PeerAnswer(t, wire, answer));
    }
  }

  lemma {:induction false} AbandonAllKeeps(t: Seam, ids: seq<RequestId>)
    requires Good(t)
    ensures Good(AbandonAll(t, ids))
  {
    if ids != [] {
      AbandonAllKeeps(t, ids[..|ids| - 1]);
      var before, id := AbandonAll(t, ids[..|ids| - 1]), ids[|ids| - 1];
      if id in before.tracked && before.tracked[id] < |before.calls| {
        AbandonKeeps(before, before.tracked[id]);
      }
    }
  }

  lemma LoseKeeps(t: Seam)
    requires Good(t)
    ensures Good(Lose(t))
  {
    var left := AbandonAll(t, Listed(t.tracked.Keys));
    AbandonAllKeeps(t, Listed(t.tracked.Keys));
    UnansweringKeeps(left, left.wires.Values, ByEnd);
    SameCoreKeeps(left.(pendings := Unanswer(left.pendings, left.wires.Values, ByEnd)), Lose(t));
  }

  lemma OutboundKeeps(t: Seam, c: CallRef, final: Final)
    requires Good(t) && TrackedOk(t) && c < |t.calls|
    ensures Good(Outbound(t, c, final))
  {
    var id := t.calls[c].original.id;
    if id in t.cancelledIds {
      SameCoreKeeps(t, Outbound(t, c, final));
    } else if Serves(t, id) {
      if t.calls[t.tracked[id]].modern {
        FinishKeeps(t, t.tracked[id], final);
      } else {
        FinishLegacyKeeps(t, t.tracked[id], final);
      }
    } else {
      RefusedKeeps(t, PassedThrough(t.calls[c].original, c, final));
    }
  }

  lemma WriteKeeps(t: Seam, c: CallRef, final: Final)
    requires Good(t) && TrackedOk(t) && c < |t.calls|
    ensures Good(WriteFinal(t, c, final))
  {
    if !t.calls[c].written {
      UnseenKeeps(t, c, t.calls[c].(written := true));
      OutboundKeeps(Noted(t, c), c, final);
    }
  }

  /** A call is tracked under its own id. */
  ghost predicate TrackedOk(t: Seam) {
    forall id :: id in t.tracked ==> t.tracked[id] < |t.calls| && t.calls[t.tracked[id]].original.id == id
  }

  lemma CancelKeeps(t: Seam, id: RequestId, c: CallRef)
    requires Good(t) && c < |t.calls|
    ensures Good(Cancel(t, id, c))
  {
    if Tracks(t, c) && id in t.calls[c].ids {
      AbandonKeeps(t, c);
      if !t.calls[c].finished {
        SameCoreKeeps(Abandon(t, c), Cancel(t, id, c));
      }
    }
  }

  /** What comes from a handler, or from its round's timer. */
  lemma HandlerStepKeeps(t: Seam, op: Op)
    requires Good(t) && TrackedOk(t) && HeldOk(t)
    requires op.EmitsAttempt? || op.EmitsOutcome? || op.RoundTimer? || op.HandlerAnswers?
    ensures Good(Step(t, op))
  {
    match op
    case EmitsAttempt(c, e) => if c < |t.calls| { AttemptKeeps(t, c, e); }
    case EmitsOutcome(c, e) => if c < |t.calls| { OutcomeKeeps(t, c, e); }
    case RoundTimer(c) => if c < |t.calls| { TimeRoundKeeps(t, c); }
    case HandlerAnswers(c, final) => if c < |t.calls| { WriteKeeps(t, c, final); }
  }

  lemma TimeoutKeeps(t: Seam, p: PendingRef)
    requires Good(t) && p < |t.pendings|
    ensures Good(TimeOut(t, p))
  {
    if t.pendings[p].once.Waiting? {
      UnansweringKeeps(t, {p}, ByTimeout);
      SameCoreKeeps(t.(pendings := Unanswer(t.pendings, {p}, ByTimeout)), TimeOut(t, p));
    }
  }

  lemma OtherStepKeeps(t: Seam, op: Op)
    requires Good(t) && TrackedOk(t) && HeldOk(t)
    requires op.AttemptTimeout? || op.Cancels? || op.Forgets? || op.PeerAnswers? || op.ConnectionLost?
    ensures Good(Step(t, op))
  {
    match op
    case AttemptTimeout(p) => if p < |t.pendings| { TimeoutKeeps(t, p); }
    case Cancels(id, c) => if c < |t.calls| { CancelKeeps(t, id, c); }
    case Forgets(id) => SameCoreKeeps(t, Step(t, op));
    case PeerAnswers(wire, answer) => PeerKeeps(t, wire, answer);
    case ConnectionLost => LoseKeeps(t);
  }

  lemma StepKeeps(t: Seam, op: Op)
    requires Good(t) && TrackedOk(t) && HeldOk(t)
    ensures Good(Step(t, op))
  {
    if op.Arrives? {
      TakeCallKeeps(t, op.id, op.modern, op.session);
    } else if op.Retries? {
      RetryKeeps(t, op.id, op.token, op.named, op.responses);
    } else if op.EmitsAttempt? || op.EmitsOutcome? || op.RoundTimer? || op.HandlerAnswers? {
      HandlerStepKeeps(t, op);
    } else {
      OtherStepKeeps(t, op);
    }
  }

  // ---------------------------------------------------------------------------------------------------
  // Who is tracked, and who holds a frame.

  /** A call still served though it was cancelled, or though it finished and holds events with no final frame to go with. */
  predicate Loose(t: Seam, c: CallRef)
    requires c < |t.calls|
  {
    var call := t.calls[c];
    Tracks(t, c) && (call.cancelled || (call.finished && call.buffered != [] && call.held.None?))
  }

  ghost predicate NoneLoose(t: Seam) {
    forall c :: 0 <= c < |t.calls| ==> !Loose(t, c)
  }

  ghost predicate Structured(t: Seam) {
    TrackedOk(t) && HeldOk(t) && NoneLoose(t)
  }

  /** The same call further on. It may finish only where `done`, and an open request is its old one or at least `since`. */
  predicate Goes(call: Call, call': Call, since: nat, done: bool) {
    && call'.original == call.original && call'.modern == call.modern
    && call'.session == call.session && call'.numbering == call.numbering
    && call'.written == call.written && (call'.finished ==> call.finished || done)
    && (call.finished ==> call'.finished) && (call.cancelled ==> call'.cancelled)
    && (call'.held.Some? ==> call'.finished || call.held.Some?)
    && (call'.current.Some? ==> call'.current == call.current || call'.current.value.arrival >= since)
  }

  /** None is taken up or comes loose, one no longer tracked has ended, and one cancelled is no longer tracked. */
  ghost predicate Untracks(t: Seam, t': Seam, done: Option<CallRef>)
    requires |t'.calls| == |t.calls|
  {
    && (forall c :: 0 <= c < |t.calls| && Loose(t', c) ==> Loose(t, c) || done == Some(c))
    && (forall id :: id in t'.tracked ==> id in t.tracked && t'.tracked[id] == t.tracked[id])
    && (forall c :: 0 <= c < |t.calls| && Tracks(t, c) && !Tracks(t', c) ==> t'.calls[c].cancelled || t'.calls[c].finished)
    && (forall c :: 0 <= c < |t.calls| && t'.calls[c].cancelled && !t.calls[c].cancelled ==> !Tracks(t', c))
  }

  /** A frame of the transport's own answers a request its call had open, or one at least `since`. */
  predicate OwnFrame(calls: seq<Call>, f: Frame, since: nat) {
    && !f.PassedThrough?
    && (Replies(f).Some? && Replies(f).value.arrival < since ==>
          && About(f).Some? && About(f).value < |calls|
          && (Replies(f) == calls[About(f).value].current || Replies(f) == Some(calls[About(f).value].original)))
  }

  ghost predicate SendsOwn(t: Seam, t': Seam, since: nat) {
    t.sent <= t'.sent && forall i :: |t.sent| <= i < |t'.sent| ==> OwnFrame(t.calls, t'.sent[i], since)
  }

  ghost predicate AllGo(t: Seam, t': Seam, since: nat, done: Option<CallRef>) {
    && |t'.calls| == |t.calls|
    && forall c :: 0 <= c < |t.calls| ==> Goes(t.calls[c], t'.calls[c], since, done == Some(c))
  }

  ghost predicate Steady(t: Seam, t': Seam, since: nat, done: Option<CallRef>) {
    && AllGo(t, t', since, done) && Untracks(t, t', done) && SendsOwn(t, t', since)
    && KeepsNumbering(t.sessions, t'.sessions) && t.arrivals <= t'.arrivals
  }

  lemma SteadyKeeps(t: Seam, t': Seam, since: nat, done: Option<CallRef>)
    requires Structured(t) && Steady(t, t', since, done) && (done.Some? && done.value < |t'.calls| ==> !Loose(t', done.value))
    ensures Structured(t')
  {
  }

  lemma SteadyThen(a: Seam, b: Seam, c: Seam, since: nat, done: Option<CallRef>)
    requires Steady(a, b, since, done) && Steady(b, c, since, done)
    ensures Steady(a, c, since, done)
  {
  }

  lemma StandingIsSteady(t: Seam, since: nat)
    ensures Steady(t, t, since, None)
  {
  }

  /** A step that changes one call, and sends at most one frame. */
  lemma OneIsSteady(t: Seam, t': Seam, c: CallRef, since: nat, done: Option<CallRef>)
    requires c < |t.calls| && |t'.calls| == |t.calls| && t'.calls == t.calls[c := t'.calls[c]]
    requires Goes(t.calls[c], t'.calls[c], since, done == Some(c)) && t'.calls[c].cancelled == t.calls[c].cancelled
    requires t'.tracked == t.tracked && KeepsNumbering(t.sessions, t'.sessions) && t.arrivals <= t'.arrivals
    requires Loose(t', c) ==> Loose(t, c) || done == Some(c)
    requires t'.sent == t.sent || exists f :: t'.sent == t.sent + [f] && OwnFrame(t.calls, f, since)
    ensures Steady(t, t', since, done)
  {
  }

  lemma DroppedIsSteady(t: Seam, c: CallRef, since: nat)
    requires c < |t.calls| && Tracks(t, c) && (t.calls[c].cancelled || t.calls[c].finished)
    ensures Steady(t, Dropped(t, c), since, None)
  {
  }

  /** A step that only lets sessions go. */
  lemma LeavingIsSteady(t: Seam, t': Seam, since: nat)
    requires SameCore(t, t') && KeepsNumbering(t.sessions, t'.sessions)
    ensures Steady(t, t', since, None)
  {
  }

  lemma ReleaseIsSteady(t: Seam, c: CallRef, final: bool, since: nat)
    requires c < |t.calls| && (t.calls[c].cancelled || t.calls[c].finished)
    ensures Steady(t, Release(t, c, final), since, None)
  {
    if Tracks(t, c) {
      DroppedIsSteady(t, c, since);
      if t.calls[c].session.Some? {
        var left := LeaveSession(Dropped(t, c), t.calls[c].session.value, final);
        LeavingIsQuiet(Dropped(t, c), t.calls[c].session.value, final);
        LeavingIsSteady(Dropped(t, c), left, since);
        SteadyThen(t, Dropped(t, c), left, since, None);
      }
    }
  }

  lemma AbandonIsSteady(t: Seam, c: CallRef, since: nat)
    requires c < |t.calls|
    ensures Steady(t, Abandon(t, c), since, None)
  {
    var marked := t.(calls := t.calls[c := t.calls[c].(cancelled := true)]);
    ReleaseIsSteady(marked, c, true, since);
    ReleaseUntracks(marked, c, true);
    assert forall k :: 0 <= k < |t.calls| ==> (Tracks(marked, k) <==> Tracks(t, k));
    MarkedThen(t, marked, Abandon(t, c), c, since);
  }

  lemma ReleaseUntracks(t: Seam, c: CallRef, final: bool)
    requires c < |t.calls|
    ensures |Release(t, c, final).calls| == |t.calls| && !Tracks(Release(t, c, final), c)
  {
    if Tracks(t, c) && t.calls[c].session.Some? {
      LeavingIsQuiet(Dropped(t, c), t.calls[c].session.value, final);
    }
  }

  lemma MarkedThen(t: Seam, marked: Seam, t': Seam, c: CallRef, since: nat)
    requires c < |t.calls| && marked == t.(calls := t.calls[c := t.calls[c].(cancelled := true)])
    requires Steady(marked, t', since, None) && !Tracks(t', c)
    ensures Steady(t, t', since, None)
  {
  }

  lemma AbandonThen(t: Seam, c: CallRef, later: Seam, since: nat)
    requires c < |t.calls| && Steady(Abandon(t, c), later, since, None)
    ensures Steady(t, later, since, None)
  {
    AbandonIsSteady(t, c, since);
    SteadyThen(t, Abandon(t, c), later, since, None);
  }

  lemma {:induction false} EvictIsSteady(t: Seam, i: nat, since: nat)
    ensures Steady(t, EvictConcluded(t, i), since, None)
    decreases |t.concluded| - i
  {
    if |t.concluded| > MAX_IDLE_SESSIONS && i < |t.concluded| && t.concluded[i] < |t.calls| {
      var t' := Abandon(t, t.concluded[i]);
      if |t'.concluded| <= |t.concluded| {
        var j := if |t'.concluded| < |t.concluded| then i else i + 1;
        assert Steady(t, EvictConcluded(t', j), since, None) by {
          EvictIsSteady(t', j, since);
          AbandonThen(t, t.concluded[i], EvictConcluded(t', j), since);
        }
      } else {
        AbandonIsSteady(t, t.concluded[i], since);
      }
    } else {
      StandingIsSteady(t, since);
    }
  }

  lemma KeepIsSteady(t: Seam, c: CallRef, final: Final, since: nat)
    requires c < |t.calls| && t.calls[c].finished
    ensures Steady(t, KeepConcluded(t, c, final), since, None)
  {
    var call := t.calls[c];
    var kept := t.(calls := t.calls[c := call.(held := Some(final))],
                   concluded := DroppingHeld(t.calls, t.concluded, call.original.id) + [c]);
    EvictIsSteady(kept, 0, since);
    SteadyThen(t, kept, EvictConcluded(kept, 0), since, None);
  }

  lemma EndRoundIsSteady(t: Seam, c: CallRef, since: nat)
    requires c < |t.calls|
    ensures Steady(t, EndRound(t, c), since, None)
  {
    var call, t' := t.calls[c], EndRound(t, c);
    if call.current.None? || call.buffered == [] {
      StandingIsSteady(t, since);
    } else {
      var f := RoundOut(call.current.value, c, t.minted, call.buffered);
      assert t'.sent == t.sent + [f] && OwnFrame(t.calls, f, since);
      OneIsSteady(t, t', c, since, None);
    }
  }

  lemma RoundKeptIsSteady(t: Seam, c: CallRef, final: Final, since: nat)
    requires c < |t.calls| && t.calls[c].finished
    ensures Steady(t, KeepConcluded(EndRound(t, c), c, final), since, None)
  {
    var out := EndRound(t, c);
    EndRoundIsSteady(t, c, since);
    KeepIsSteady(out, c, final, since);
    SteadyThen(t, out, KeepConcluded(out, c, final), since, None);
  }

  lemma AnsweredIsSteady(t: Seam, answered: Seam, c: CallRef, final: bool, since: nat)
    requires c < |t.calls| && Steady(t, answered, since, None) && answered.calls[c].finished
    ensures Steady(t, Release(answered, c, final), since, None)
  {
    ReleaseIsSteady(answered, c, final, since);
    SteadyThen(t, answered, Release(answered, c, final), since, None);
  }

  lemma AnsweringIsSteady(t: Seam, c: CallRef, final: Final, since: nat)
    requires c < |t.calls| && t.calls[c].finished
    ensures var call := t.calls[c];
            var answered := t.(calls := t.calls[c := call.(buffered := [])],
                               sent := if call.current.None? then t.sent
                                       else t.sent + [FinalOut(call.current.value, c, final, call.buffered)]);
            Steady(t, Release(answered, c, !final.kind.Asks?), since, None)
  {
    var call := t.calls[c];
    var answered := t.(calls := t.calls[c := call.(buffered := [])],
                       sent := if call.current.None? then t.sent
                               else t.sent + [FinalOut(call.current.value, c, final, call.buffered)]);
    OneIsSteady(t, answered, c, since, None);
    AnsweredIsSteady(t, answered, c, !final.kind.Asks?, since);
  }

  lemma ConcludeIsSteady(t: Seam, c: CallRef, final: Final, since: nat)
    requires c < |t.calls| && t.calls[c].finished
    ensures Steady(t, ConcludeCall(t, c, final), since, None)
  {
    if final.kind.Failure? && t.calls[c].buffered != [] {
      RoundKeptIsSteady(t, c, final, since);
    } else {
      AnsweringIsSteady(t, c, final, since);
    }
  }

  lemma FinishIsSteady(t: Seam, c: CallRef, final: Final, since: nat)
    requires c < |t.calls| && !Loose(t, c)
    ensures Steady(t, FinishCall(t, c, final), since, Some(c)) && !Loose(FinishCall(t, c, final), c)
  {
    var marked := Marked(t, c);
    FinishedIsNotLoose(marked, c, final, since);
    MarkedIsSteady(t, c, since);
    if t.calls[c].round.Some? {
      KeepIsSteady(marked, c, final, since);
    } else {
      ConcludeIsSteady(marked, c, final, since);
    }
    Allowing(marked, FinishCall(t, c, final), since, c);
    SteadyThen(t, marked, FinishCall(t, c, final), since, Some(c));
  }

  lemma MarkedIsSteady(t: Seam, c: CallRef, since: nat)
    requires c < |t.calls|
    ensures Steady(t, Marked(t, c), since, Some(c))
  {
  }

  lemma KeptIsNotLoose(t: Seam, c: CallRef, final: Final, since: nat)
    requires c < |t.calls| && (Tracks(t, c) ==> !t.calls[c].cancelled)
    ensures !Loose(KeepConcluded(t, c, final), c)
  {
    var call := t.calls[c];
    EvictIsSteady(t.(calls := t.calls[c := call.(held := Some(final))],
                     concluded := DroppingHeld(t.calls, t.concluded, call.original.id) + [c]), 0, since);
  }

  lemma FinishedIsNotLoose(t: Seam, c: CallRef, final: Final, since: nat)
    requires c < |t.calls| && t.calls[c].finished && (Tracks(t, c) ==> !t.calls[c].cancelled)
    ensures !Loose(KeepConcluded(t, c, final), c) && !Loose(ConcludeCall(t, c, final), c)
  {
    var call := t.calls[c];
    KeptIsNotLoose(t, c, final, since);
    if final.kind.Failure? && call.buffered != [] {
      RoundIsNotLoose(t, c, final, since);
    } else {
      var answered := t.(calls := t.calls[c := call.(buffered := [])],
                         sent := if call.current.None? then t.sent
                                 else t.sent + [FinalOut(call.current.value, c, final, call.buffered)]);
      ReleaseUntracks(answered, c, !final.kind.Asks?);
    }
  }

  lemma RoundIsNotLoose(t: Seam, c: CallRef, final: Final, since: nat)
    requires c < |t.calls| && (Tracks(t, c) ==> !t.calls[c].cancelled)
    ensures !Loose(KeepConcluded(EndRound(t, c), c, final), c)
  {
    KeptIsNotLoose(EndRound(t, c), c, final, since);
  }

  lemma Allowing(t: Seam, t': Seam, since: nat, c: CallRef)
    requires Steady(t, t', since, None)
    ensures Steady(t, t', since, Some(c))
  {
  }

  lemma FinishLegacyIsSteady(t: Seam, c: CallRef, final: Final, since: nat)
    requires c < |t.calls|
    ensures Steady(t, FinishLegacy(t, c, final), since, Some(c)) && !Loose(FinishLegacy(t, c, final), c)
  {
    ReleaseUntracks(LegacyGone(t, c, final), c, !final.kind.Asks?);
    var gone := LegacyGone(t, c, final);
    ReleaseIsSteady(gone, c, !final.kind.Asks?, since);
    OneIsSteady(t, gone, c, since, Some(c));
    Allowing(gone, FinishLegacy(t, c, final), since, c);
    SteadyThen(t, gone, FinishLegacy(t, c, final), since, Some(c));
  }

  /** A handler's frame that finishes the call its id names now. */
  lemma FinishingIsSteady(t: Seam, c: CallRef, final: Final, since: nat)
    requires c < |t.calls| && t.calls[c].original.id !in t.cancelledIds && Serves(t, t.calls[c].original.id)
    requires !Loose(t, t.tracked[t.calls[c].original.id])
    ensures Steady(t, Outbound(t, c, final), since, Some(t.tracked[t.calls[c].original.id]))
    ensures !Loose(Outbound(t, c, final), t.tracked[t.calls[c].original.id])
  {
    var d := t.tracked[t.calls[c].original.id];
    if t.calls[d].modern {
      FinishIsSteady(t, d, final, since);
    } else {
      FinishLegacyIsSteady(t, d, final, since);
    }
  }

  lemma ResumeIsSteady(t: Seam, c: CallRef, request: Request, named: Option<SessionId>, responses: map<Id, Answer>)
    requires c < |t.calls| && t.calls[c].round.Some?
    ensures Steady(t, Resume(t, c, request, named, responses), request.arrival, None)
  {
  }

  lemma AcceptIsSteady(t: Seam, c: CallRef, request: Request, named: Option<SessionId>, responses: map<Id, Answer>)
    requires HeldOk(t) && NoneLoose(t) && c < |t.calls| && t.calls[c].round.Some?
    ensures Steady(t, AcceptRetry(t, c, request, named, responses), request.arrival, None)
  {
    var resumed := Resume(t, c, request, named, responses);
    var call := resumed.calls[c];
    ResumeIsSteady(t, c, request, named, responses);
    if call.held.Some? {
      HeldGoesOut(t, resumed, c, call.held.value, request.arrival);
    } else if !call.finished && CarriesAttempt(call.buffered) {
      var scheduled := resumed.(calls := resumed.calls[c := call.(scheduled := true)]);
      OneIsSteady(resumed, scheduled, c, request.arrival, None);
      SteadyThen(t, resumed, scheduled, request.arrival, None);
    }
  }

  lemma HeldGoesOut(t: Seam, resumed: Seam, c: CallRef, final: Final, since: nat)
    requires c < |t.calls| && t.calls[c].finished && Steady(t, resumed, since, None) && !Loose(t, c)
    ensures var unheld := resumed.(calls := resumed.calls[c := resumed.calls[c].(held := None)],
                                   concluded := DroppingHeld(t.calls, t.concluded, resumed.calls[c].original.id));
            Steady(t, ConcludeCall(unheld, c, final), since, None)
  {
    var unheld := resumed.(calls := resumed.calls[c := resumed.calls[c].(held := None)],
                           concluded := DroppingHeld(t.calls, t.concluded, resumed.calls[c].original.id));
    OneIsSteady(resumed, unheld, c, since, Some(c));
    Allowing(t, resumed, since, c);
    SteadyThen(t, resumed, unheld, since, Some(c));
    var concluded := ConcludeCall(unheld, c, final);
    ConcludeIsSteady(unheld, c, final, since);
    FinishedIsNotLoose(unheld, c, final, since);
    Allowing(unheld, concluded, since, c);
    SteadyThen(t, unheld, concluded, since, Some(c));
    Tightened(t, concluded, since, c);
  }

  lemma Tightened(t: Seam, t': Seam, since: nat, c: CallRef)
    requires Steady(t, t', since, Some(c)) && c < |t.calls| && t.calls[c].finished && !Loose(t', c)
    ensures Steady(t, t', since, None)
  {
  }

  lemma TryTokenIsSteady(t: Seam, request: Request, token: Token, named: Option<SessionId>, responses: map<Id, Answer>)
    requires HeldOk(t) && NoneLoose(t)
    ensures Steady(t, TryToken(t, request, token, named, responses), request.arrival, None)
  {
    if Resumes(t, token) {
      AcceptIsSteady(t, t.rounds[token], request, named, responses);
    }
  }

  lemma RetryIsSteady(t: Seam, id: RequestId, token: Token, named: Option<SessionId>, responses: map<Id, Answer>)
    requires HeldOk(t) && NoneLoose(t)
    ensures Steady(t, TakeRetry(t, id, token, named, responses), t.arrivals, None)
  {
    var arrived := t.(arrivals := t.arrivals + 1);
    RetryTriesToken(t, id, token, named, responses);
    assert forall c :: 0 <= c < |t.calls| ==> Loose(arrived, c) == Loose(t, c);
    TryTokenIsSteady(arrived, Request(id, t.arrivals), token, named, responses);
    SteadyThen(t, arrived, TryToken(arrived, Request(id, t.arrivals), token, named, responses), t.arrivals, None);
  }

  lemma AttemptIsSteady(t: Seam, c: CallRef, e: Event, since: nat)
    requires c < |t.calls|
    ensures Steady(t, EmitAttempt(t, c, e), since, None)
  {
    OneIsSteady(t, EmitAttempt(t, c, e), c, since, None);
  }

  lemma OutcomeIsSteady(t: Seam, c: CallRef, e: Event, since: nat)
    requires c < |t.calls|
    ensures Steady(t, EmitOutcome(t, c, e), since, None)
  {
    OneIsSteady(t, EmitOutcome(t, c, e), c, since, None);
  }

  lemma TimerIsSteady(t: Seam, c: CallRef, since: nat)
    requires c < |t.calls|
    ensures Steady(t, TimeRound(t, c), since, None)
  {
    var due := t.(calls := t.calls[c := t.calls[c].(scheduled := false)]);
    assert Steady(t, due, since, None);
    EndRoundIsSteady(due, c, since);
    SteadyThen(t, due, EndRound(due, c), since, None);
  }

  lemma LossIsSteady(t: Seam, since: nat)
    ensures Steady(t, Lose(t), since, None)
  {
    AbandonAllIsSteady(t, Listed(t.tracked.Keys), since);
    var left := AbandonAll(t, Listed(t.tracked.Keys));
    SettledIsSteady(left, Lose(t), since);
    SteadyThen(t, left, Lose(t), since, None);
  }

  lemma SettledIsSteady(t: Seam, t': Seam, since: nat)
    requires t' == t.(pendings := t'.pendings, wires := t'.wires, cancelledIds := t'.cancelledIds, idle := t'.idle,
                      sessions := t'.sessions)
    requires KeepsNumbering(t.sessions, t'.sessions)
    ensures Steady(t, t', since, None)
  {
  }

  lemma CancelIsAbandon(t: Seam, id: RequestId, c: CallRef)
    requires c < |t.calls|
    ensures Cancel(t, id, c) == t || Cancel(t, id, c) == Abandon(t, c).(cancelledIds := Cancel(t, id, c).cancelledIds)
  {
  }

  lemma CancelIsSteady(t: Seam, id: RequestId, c: CallRef, since: nat)
    requires c < |t.calls|
    ensures Steady(t, Cancel(t, id, c), since, None)
  {
    if Cancel(t, id, c) == t {
      StandingIsSteady(t, since);
    } else {
      CancelIsAbandon(t, id, c);
      LeavingIsSteady(Abandon(t, c), Cancel(t, id, c), since);
      AbandonThen(t, c, Cancel(t, id, c), since);
    }
  }

  lemma {:induction false} AbandonAllIsSteady(t: Seam, ids: seq<RequestId>, since: nat)
    ensures Steady(t, AbandonAll(t, ids), since, None)
  {
    if ids != [] {
      AbandonAllIsSteady(t, ids[..|ids| - 1], since);
      var before, id := AbandonAll(t, ids[..|ids| - 1]), ids[|ids| - 1];
      if id in before.tracked && before.tracked[id] < |before.calls| {
        AbandonIsSteady(before, before.tracked[id], since);
        SteadyThen(t, before, Abandon(before, before.tracked[id]), since, None);
      }
    }
  }

  lemma AsideIsSteady(t: Seam, t': Seam)
    requires t' == t.(pendings := t'.pendings, wires := t'.wires, cancelledIds := t'.cancelledIds)
    ensures Steady(t, t', t.arrivals, None)
  {
  }

  lemma StepIsSteady(t: Seam, op: Op)
    requires HeldOk(t) && NoneLoose(t) && !op.Arrives? && !op.HandlerAnswers?
    ensures Steady(t, Step(t, op), t.arrivals, None)
  {
    match op
    case Retries(id, token, named, responses) => RetryIsSteady(t, id, token, named, responses);
    case EmitsAttempt(c, e) => if c < |t.calls| { AttemptIsSteady(t, c, e, t.arrivals); }
    case EmitsOutcome(c, e) => if c < |t.calls| { OutcomeIsSteady(t, c, e, t.arrivals); }
    case RoundTimer(c) => if c < |t.calls| { TimerIsSteady(t, c, t.arrivals); }
    case AttemptTimeout(p) => AsideIsSteady(t, Step(t, op));
    case Cancels(id, c) => if c < |t.calls| { CancelIsSteady(t, id, c, t.arrivals); }
    case Forgets(id) => AsideIsSteady(t, Step(t, op));
    case PeerAnswers(wire, answer) => AsideIsSteady(t, Step(t, op));
    case ConnectionLost => LossIsSteady(t, t.arrivals);
  }

  lemma NotedStructured(t: Seam, c: CallRef)
    requires Structured(t) && c < |t.calls|
    ensures Structured(Noted(t, c))
  {
    forall k | 0 <= k < |t.calls|
      ensures !Loose(Noted(t, c), k)
    {
      assert !Loose(t, k);
    }
  }

  lemma WriteStructured(t: Seam, c: CallRef, final: Final)
    requires Structured(t) && c < |t.calls|
    ensures Structured(WriteFinal(t, c, final))
  {
    var noted := Noted(t, c);
    NotedStructured(t, c);
    if !t.calls[c].written && noted.calls[c].original.id !in noted.cancelledIds && Serves(noted, noted.calls[c].original.id) {
      FinishingIsSteady(noted, c, final, t.arrivals);
      SteadyKeeps(noted, WriteFinal(t, c, final), t.arrivals, Some(noted.tracked[noted.calls[c].original.id]));
    } else if !t.calls[c].written {
      AsideStructured(noted, WriteFinal(t, c, final));
    }
  }

  lemma AsideStructured(t: Seam, t': Seam)
    requires Structured(t) && t' == t.(cancelledIds := t'.cancelledIds, sent := t'.sent)
    ensures Structured(t')
  {
    forall c | 0 <= c < |t'.calls|
      ensures !Loose(t', c)
    {
      assert !Loose(t, c);
    }
  }

  lemma StepStructured(t: Seam, op: Op)
    requires Structured(t)
    ensures Structured(Step(t, op))
  {
    if op.HandlerAnswers? {
      if op.call < |t.calls| {
        WriteStructured(t, op.call, op.final);
      }
    } else if !op.Arrives? {
      StepIsSteady(t, op);
      SteadyKeeps(t, Step(t, op), t.arrivals, None);
    } else {
      TakenStructured(t, op.id, op.modern, op.session);
    }
  }

  lemma TakenStructured(t: Seam, id: RequestId, modern: bool, session: Option<SessionId>)
    requires Structured(t)
    ensures Structured(TakeCall(t, id, modern, session))
  {
    var t' := TakeCall(t, id, modern, session);
    forall c | 0 <= c < |t'.calls|
      ensures !Loose(t', c)
    {
      if c < |t.calls| {
        assert !Loose(t, c) && t'.calls[c] == t.calls[c];
      }
    }
  }

  lemma {:induction false} RunKeeps(ops: seq<Op>)
    ensures Good(Run(EMPTY, ops)) && Structured(Run(EMPTY, ops))
  {
    if ops != [] {
      RunKeeps(ops[..|ops| - 1]);
      StepKeeps(Run(EMPTY, ops[..|ops| - 1]), ops[|ops| - 1]);
      StepStructured(Run(EMPTY, ops[..|ops| - 1]), ops[|ops| - 1]);
    }
  }

  // ---------------------------------------------------------------------------------------------------
  // The main results.

  /**
   * Conservation. At any moment, what a call's frames carried, in sending order, and then what it still holds, is
   * what its handler emitted, in order and once each; once the handler has finished, less the attempts unsent then.
   */
  lemma EventsAreConserved(ops: seq<Op>, c: CallRef)
    requires c < |Run(EMPTY, ops).calls|
    ensures var t := Run(EMPTY, ops);
            var call := t.calls[c];
            && call.cut <= |call.emitted|
            && (!call.finished ==> Delivered(t.sent, c) + call.buffered == call.emitted)
            && (call.finished ==>
                  Delivered(t.sent, c) + call.buffered == call.emitted[..call.cut] + Outcomes(call.emitted[call.cut..]))
  {
    RunKeeps(ops);
    assert CallOk(Run(EMPTY, ops), c);
  }

  /** And when its final frame has gone, nothing is held back: all it owed was delivered. */
  lemma FinalFrameDeliversAll(ops: seq<Op>, c: CallRef)
    requires FinalSent(Run(EMPTY, ops).sent, c)
    ensures var t := Run(EMPTY, ops);
            && c < |t.calls| && t.calls[c].cut <= |t.calls[c].emitted|
            && Delivered(t.sent, c) == t.calls[c].emitted[..t.calls[c].cut] + Outcomes(t.calls[c].emitted[t.calls[c].cut..])
  {
    RunKeeps(ops);
    var t := Run(EMPTY, ops);
    assert exists i :: 0 <= i < |t.sent| && About(t.sent[i]) == Some(c);
    assert CallOk(t, c);
  }

  /** A call being served has a round out exactly when it has no request open. */
  lemma RoundOutWhenNothingIsOpen(ops: seq<Op>, id: RequestId)
    requires id in Run(EMPTY, ops).tracked
    ensures var t := Run(EMPTY, ops);
            && t.tracked[id] < |t.calls|
            && (t.calls[t.tracked[id]].round.Some? <==> t.calls[t.tracked[id]].current.None?)
  {
    RunKeeps(ops);
    var t := Run(EMPTY, ops);
    assert CallOk(t, t.tracked[id]);
  }

  /** Each round token resumes one call, the one whose round went out under it, and at most one time. */
  lemma TokensResumeOnce(ops: seq<Op>, k: nat, l: nat)
    requires k < |Run(EMPTY, ops).resumed| && l < |Run(EMPTY, ops).resumed|
    ensures var t := Run(EMPTY, ops);
            && Minted(t.sent, t.resumed[k].call, t.resumed[k].token)
            && (k != l ==> t.resumed[k].token != t.resumed[l].token)
  {
    RunKeeps(ops);
  }
}
