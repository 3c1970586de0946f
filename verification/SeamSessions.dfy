/**
 * The calls that concluded while a round was out and wait for its retry: they are being served, and their number stays
 * within its bound, as long as no request takes the place of one of them.
 */
module SeamSessions {
  import opened Records
  import opened Ordering
  import opened Seams
  import opened SeamInvariants
  import opened SeamSteps
  import opened SeamRuns
  import opened SeamTallies

  // ---------------------------------------------------------------------------------------------------
  // Concluded calls.

  /** The calls kept are being served, once each, and hold their final frame. */
  ghost predicate ConcludedOk(t: Seam) {
    && NoRepeats(t.concluded)
    && forall i :: 0 <= i < |t.concluded| ==>
         t.concluded[i] < |t.calls| && Tracks(t, t.concluded[i]) && t.calls[t.concluded[i]].held.Some?
  }

  /** A call that holds its final frame is being served. */
  ghost predicate HeldTracked(t: Seam) {
    forall c :: 0 <= c < |t.calls| && t.calls[c].held.Some? ==> Tracks(t, c)
  }

  ghost predicate Books(t: Seam) {
    TrackedOk(t) && ConcludedOk(t) && HeldTracked(t)
  }

  lemma {:induction false} DroppingHeldDrops(calls: seq<Call>, concluded: seq<CallRef>, id: RequestId)
    requires NoRepeats(concluded)
    ensures NoRepeats(DroppingHeld(calls, concluded, id))
    ensures forall y :: y in DroppingHeld(calls, concluded, id) <==>
              y in concluded && !(y < |calls| && calls[y].original.id == id)
  {
    if concluded != [] {
      var n := |concluded| - 1;
      assert concluded == concluded[..n] + [concluded[n]] && forall i :: 0 <= i < n ==> concluded[..n][i] == concluded[i];
      DroppingHeldDrops(calls, concluded[..n], id);
      assert concluded[n] !in concluded[..n];
    }
  }

  lemma DroppedConcluded(t: Seam, c: CallRef)
    requires ConcludedOk(t) && c < |t.calls| && Tracks(t, c)
    ensures ConcludedOk(Dropped(t, c))
    ensures c in t.concluded ==> |Dropped(t, c).concluded| < |t.concluded|
  {
    var id := t.calls[c].original.id;
    var t' := Dropped(t, c);
    DroppingHeldDrops(t.calls, t.concluded, id);
    forall i | 0 <= i < |t'.concluded|
      ensures t'.concluded[i] < |t'.calls| && Tracks(t', t'.concluded[i])
    {
      assert t'.concluded[i] in t'.concluded;
      var k :| 0 <= k < |t.concluded| && t.concluded[k] == t'.concluded[i];
    }
    if c in t.concluded {
      DroppingHeldShrinks(t.calls, t.concluded, id, c);
    }
  }

  lemma {:induction false} DroppingHeldShrinks(calls: seq<Call>, concluded: seq<CallRef>, id: RequestId, c: CallRef)
    requires c in concluded && c < |calls| && calls[c].original.id == id
    ensures |DroppingHeld(calls, concluded, id)| < |concluded|
  {
    var n := |concluded| - 1;
    assert concluded == concluded[..n] + [concluded[n]];
    if concluded[n] != c {
      DroppingHeldShrinks(calls, concluded[..n], id, c);
    }
  }

  lemma {:induction false} EvictIdleLeavesConcluded(t: Seam)
    ensures EvictIdle(t).concluded == t.concluded
    decreases |t.idle|
  {
    if |t.idle| > MAX_IDLE_SESSIONS {
      EvictIdleLeavesConcluded(DropSession(t, t.idle[0]));
    }
  }

  lemma LeavingLeavesConcluded(t: Seam, s: SessionId, final: bool)
    ensures LeaveSession(t, s, final).concluded == t.concluded
  {
    if s in t.sessions {
      var left := Recounted(t, s);
      EvictIdleLeavesConcluded(left.(idle := Dropping(left.idle, s) + [s]));
    }
  }

  lemma ReleaseKeepsBooks(t: Seam, c: CallRef, final: bool)
    requires Books(t) && c < |t.calls|
    ensures var t' := Release(t, c, final);
            && Books(t')
            && (Tracks(t, c) && c in t.concluded ==> |t'.concluded| < |t.concluded|)
            && |t'.concluded| <= |t.concluded|
  {
    if Tracks(t, c) {
      var dropped := Dropped(t, c);
      DroppedConcluded(t, c);
      assert HeldTracked(dropped);
      if t.calls[c].session.Some? {
        var s := t.calls[c].session.value;
        LeavingIsQuiet(dropped, s, final);
        LeavingLeavesConcluded(dropped, s, final);
        SameTracking(dropped, LeaveSession(dropped, s, final));
      }
    }
  }

  lemma SameTracking(t: Seam, t': Seam)
    requires ConcludedOk(t) && HeldTracked(t)
    requires t'.calls == t.calls && t'.tracked == t.tracked && t'.concluded == t.concluded
    ensures ConcludedOk(t') && HeldTracked(t')
  {
  }

  /** A step that leaves the books alone. */
  lemma UnbookedKeeps(t: Seam, t': Seam)
    requires Books(t) && SameBooks(t, t') && t'.concluded == t.concluded
    requires forall c :: 0 <= c < |t.calls| ==> t'.calls[c].held == t.calls[c].held
    ensures Books(t')
  {
  }

  /** One call moves on, and not in anything the books look at. */
  lemma OneUnbooked(t: Seam, t': Seam, c: CallRef)
    requires Books(t) && c < |t.calls| && |t'.calls| == |t.calls| && t'.calls == t.calls[c := t'.calls[c]]
    requires SameIdentity(t.calls[c], t'.calls[c]) && t'.calls[c].held == t.calls[c].held
    requires t'.tracked == t.tracked && t'.concluded == t.concluded && t'.sessions == t.sessions && t'.idle == t.idle
    ensures Books(t')
  {
    UnbookedKeeps(t, t');
  }

  lemma AbandonKeepsBooks(t: Seam, c: CallRef)
    requires Books(t) && c < |t.calls|
    ensures Books(Abandon(t, c)) && |Abandon(t, c).concluded| <= |t.concluded|
    ensures Tracks(t, c) && c in t.concluded ==> |Abandon(t, c).concluded| < |t.concluded|
  {
    var cancelled := t.(calls := t.calls[c := t.calls[c].(cancelled := true)]);
    UnbookedKeeps(t, cancelled);
    ReleaseKeepsBooks(cancelled, c, true);
  }

  /** Beyond the bound, the least recently kept call goes. */
  lemma {:induction false} EvictConcludedKeepsBooks(t: Seam)
    requires Books(t)
    ensures Books(EvictConcluded(t, 0)) && |EvictConcluded(t, 0).concluded| <= MAX_IDLE_SESSIONS
    decreases |t.concluded|
  {
    if |t.concluded| > MAX_IDLE_SESSIONS {
      assert t.concluded[0] in t.concluded;
      AbandonKeepsBooks(t, t.concluded[0]);
      EvictConcludedKeepsBooks(Abandon(t, t.concluded[0]));
    }
  }

  lemma KeepKeepsBooks(t: Seam, c: CallRef, final: Final)
    requires Books(t) && c < |t.calls| && Tracks(t, c)
    ensures Books(KeepConcluded(t, c, final)) && |KeepConcluded(t, c, final).concluded| <= MAX_IDLE_SESSIONS
  {
    var call := t.calls[c];
    var kept := t.(calls := t.calls[c := call.(held := Some(final))],
                   concluded := DroppingHeld(t.calls, t.concluded, call.original.id) + [c]);
    DroppingHeldDrops(t.calls, t.concluded, call.original.id);
    KeptIsOk(t, kept, c);
    EvictConcludedKeepsBooks(kept);
  }

  lemma KeptIsOk(t: Seam, kept: Seam, c: CallRef)
    requires ConcludedOk(t) && HeldTracked(t) && c < |t.calls| && Tracks(t, c)
    requires kept.tracked == t.tracked && |kept.calls| == |t.calls|
    requires forall k :: 0 <= k < |t.calls| ==>
               SameIdentity(t.calls[k], kept.calls[k]) && (k != c ==> kept.calls[k].held == t.calls[k].held)
    requires kept.calls[c].held.Some?
    requires NoRepeats(DroppingHeld(t.calls, t.concluded, t.calls[c].original.id))
    requires forall y :: y in DroppingHeld(t.calls, t.concluded, t.calls[c].original.id) <==>
               y in t.concluded && !(y < |t.calls| && t.calls[y].original.id == t.calls[c].original.id)
    requires kept.concluded == DroppingHeld(t.calls, t.concluded, t.calls[c].original.id) + [c]
    ensures ConcludedOk(kept) && HeldTracked(kept)
  {
    var front := DroppingHeld(t.calls, t.concluded, t.calls[c].original.id);
    forall i | 0 <= i < |kept.concluded|
      ensures kept.concluded[i] < |kept.calls| && Tracks(kept, kept.concluded[i])
    {
      if i < |front| {
        assert front[i] in front;
        var k :| 0 <= k < |t.concluded| && t.concluded[k] == front[i];
      }
    }
  }

  lemma EndRoundKeepsBooks(t: Seam, c: CallRef)
    requires Books(t) && c < |t.calls| && Tracks(t, c)
    ensures Books(EndRound(t, c)) && EndRound(t, c).concluded == t.concluded && Tracks(EndRound(t, c), c)
  {
    UnbookedKeeps(t, EndRound(t, c));
  }

  lemma AnsweringKeepsBooks(t: Seam, c: CallRef, final: Final)
    requires Books(t) && |t.concluded| <= MAX_IDLE_SESSIONS && c < |t.calls|
    ensures var call := t.calls[c];
            var answered := t.(calls := t.calls[c := call.(buffered := [])],
                               sent := if call.current.None? then t.sent
                                       else t.sent + [FinalOut(call.current.value, c, final, call.buffered)]);
            var t' := Release(answered, c, !final.kind.Asks?);
            Books(t') && |t'.concluded| <= MAX_IDLE_SESSIONS
  {
    var call := t.calls[c];
    var answered := t.(calls := t.calls[c := call.(buffered := [])],
                       sent := if call.current.None? then t.sent
                               else t.sent + [FinalOut(call.current.value, c, final, call.buffered)]);
    UnbookedKeeps(t, answered);
    ReleaseKeepsBooks(answered, c, !final.kind.Asks?);
  }

  lemma ConcludeKeepsBooks(t: Seam, c: CallRef, final: Final)
    requires Books(t) && |t.concluded| <= MAX_IDLE_SESSIONS && c < |t.calls| && Tracks(t, c)
    ensures Books(ConcludeCall(t, c, final)) && |ConcludeCall(t, c, final).concluded| <= MAX_IDLE_SESSIONS
  {
    var call := t.calls[c];
    if final.kind.Failure? && call.buffered != [] {
      EndRoundKeepsBooks(t, c);
      KeepKeepsBooks(EndRound(t, c), c, final);
    } else {
      AnsweringKeepsBooks(t, c, final);
    }
  }

  lemma FinishKeepsBooks(t: Seam, c: CallRef, final: Final)
    requires Books(t) && |t.concluded| <= MAX_IDLE_SESSIONS && c < |t.calls| && Tracks(t, c)
    ensures Books(FinishCall(t, c, final)) && |FinishCall(t, c, final).concluded| <= MAX_IDLE_SESSIONS
  {
    UnbookedKeeps(t, Marked(t, c));
    if t.calls[c].round.Some? {
      KeepKeepsBooks(Marked(t, c), c, final);
    } else {
      ConcludeKeepsBooks(Marked(t, c), c, final);
    }
  }

  lemma FinishLegacyKeepsBooks(t: Seam, c: CallRef, final: Final)
    requires Books(t) && c < |t.calls| && Tracks(t, c)
    ensures Books(FinishLegacy(t, c, final)) && |FinishLegacy(t, c, final).concluded| <= |t.concluded|
  {
    UnbookedKeeps(t, LegacyGone(t, c, final));
    ReleaseKeepsBooks(LegacyGone(t, c, final), c, !final.kind.Asks?);
  }

  lemma OutboundKeepsBooks(t: Seam, c: CallRef, final: Final)
    requires Books(t) && |t.concluded| <= MAX_IDLE_SESSIONS && c < |t.calls|
    ensures Books(Outbound(t, c, final)) && |Outbound(t, c, final).concluded| <= MAX_IDLE_SESSIONS
  {
    var id := t.calls[c].original.id;
    if id !in t.cancelledIds && Serves(t, id) {
      if t.calls[t.tracked[id]].modern {
        FinishKeepsBooks(t, t.tracked[id], final);
      } else {
        FinishLegacyKeepsBooks(t, t.tracked[id], final);
      }
    } else {
      SameCallsKeep(t, t.(cancelledIds := t.cancelledIds - {id}));
      SameCallsKeep(t, t.(sent := t.sent + [PassedThrough(t.calls[c].original, c, final)]));
    }
  }

  lemma WriteKeepsBooks(t: Seam, c: CallRef, final: Final)
    requires Books(t) && |t.concluded| <= MAX_IDLE_SESSIONS && c < |t.calls|
    ensures Books(WriteFinal(t, c, final)) && |WriteFinal(t, c, final).concluded| <= MAX_IDLE_SESSIONS
  {
    UnbookedKeeps(t, Noted(t, c));
    OutboundKeepsBooks(Noted(t, c), c, final);
  }

  lemma AcceptKeepsBooks(t: Seam, c: CallRef, request: Request, named: Option<SessionId>, responses: map<Id, Answer>)
    requires Books(t) && HeldOk(t) && |t.concluded| <= MAX_IDLE_SESSIONS && c < |t.calls| && t.calls[c].round.Some?
    ensures var t' := AcceptRetry(t, c, request, named, responses); Books(t') && |t'.concluded| <= MAX_IDLE_SESSIONS
  {
    var resumed := Resume(t, c, request, named, responses);
    var call := resumed.calls[c];
    UnbookedKeeps(t, resumed);
    if call.held.Some? {
      HeldKeepsBooks(t, resumed, c, call.held.value);
    } else if !call.finished && CarriesAttempt(call.buffered) {
      UnbookedKeeps(resumed, resumed.(calls := resumed.calls[c := call.(scheduled := true)]));
    }
  }

  /** A final frame that was held goes out. */
  lemma HeldKeepsBooks(t: Seam, resumed: Seam, c: CallRef, final: Final)
    requires Books(resumed) && c < |resumed.calls| && resumed.calls[c].held.Some? && |t.calls| == |resumed.calls|
    requires t.concluded == resumed.concluded && |t.concluded| <= MAX_IDLE_SESSIONS
    requires forall k :: 0 <= k < |t.calls| ==> t.calls[k].original == resumed.calls[k].original
    ensures var unheld := resumed.(calls := resumed.calls[c := resumed.calls[c].(held := None)],
                                   concluded := DroppingHeld(t.calls, t.concluded, resumed.calls[c].original.id));
            var t' := ConcludeCall(unheld, c, final);
            Books(t') && |t'.concluded| <= MAX_IDLE_SESSIONS
  {
    var id := resumed.calls[c].original.id;
    var unheld := resumed.(calls := resumed.calls[c := resumed.calls[c].(held := None)],
                           concluded := DroppingHeld(t.calls, t.concluded, id));
    DroppingHeldDrops(t.calls, t.concluded, id);
    FewerConcluded(resumed, unheld, c);
    ConcludeKeepsBooks(unheld, c, final);
  }

  /** The call no longer holds its frame, and is no longer kept. */
  lemma FewerConcluded(t: Seam, t': Seam, c: CallRef)
    requires Books(t) && SameBooks(t, t') && NoRepeats(t'.concluded) && c < |t.calls| && t'.calls[c].held.None?
    requires forall y :: y in t'.concluded ==> y in t.concluded && y != c
    requires forall k :: 0 <= k < |t.calls| && k != c ==> t'.calls[k].held == t.calls[k].held
    ensures Books(t')
  {
    forall i | 0 <= i < |t'.concluded|
      ensures t'.concluded[i] < |t'.calls| && Tracks(t', t'.concluded[i]) && t'.calls[t'.concluded[i]].held.Some?
    {
      assert t'.concluded[i] in t'.concluded;
      var k :| 0 <= k < |t.concluded| && t.concluded[k] == t'.concluded[i];
    }
  }

  lemma TryTokenKeepsBooks(t: Seam, request: Request, token: Token, named: Option<SessionId>, responses: map<Id, Answer>)
    requires Books(t) && HeldOk(t) && |t.concluded| <= MAX_IDLE_SESSIONS
    ensures var t' := TryToken(t, request, token, named, responses); Books(t') && |t'.concluded| <= MAX_IDLE_SESSIONS
  {
    if Resumes(t, token) {
      AcceptKeepsBooks(t, t.rounds[token], request, named, responses);
    } else {
      SameCallsKeep(t, t.(rounds := t.rounds - {token}, sent := t.sent + [NoOpenRound(request)]));
    }
  }

  lemma ArrivedKeepsBooks(t: Seam, id: RequestId, token: Token, named: Option<SessionId>, responses: map<Id, Answer>)
    requires Books(t) && HeldOk(t) && |t.concluded| <= MAX_IDLE_SESSIONS
    ensures var t' := TryToken(t.(arrivals := t.arrivals + 1), Request(id, t.arrivals), token, named, responses);
            Books(t') && |t'.concluded| <= MAX_IDLE_SESSIONS
  {
    SameCallsKeep(t, t.(arrivals := t.arrivals + 1));
    TryTokenKeepsBooks(t.(arrivals := t.arrivals + 1), Request(id, t.arrivals), token, named, responses);
  }

  lemma RetryKeepsBooks(t: Seam, id: RequestId, token: Token, named: Option<SessionId>, responses: map<Id, Answer>)
    requires Books(t) && HeldOk(t) && |t.concluded| <= MAX_IDLE_SESSIONS
    ensures var t' := TakeRetry(t, id, token, named, responses); Books(t') && |t'.concluded| <= MAX_IDLE_SESSIONS
  {
    RetryTriesToken(t, id, token, named, responses);
    ArrivedKeepsBooks(t, id, token, named, responses);
  }

  lemma SameCallsKeep(t: Seam, t': Seam)
    requires Books(t) && t'.calls == t.calls && t'.tracked == t.tracked && t'.sessions == t.sessions
    requires t'.idle == t.idle && t'.concluded == t.concluded
    ensures Books(t')
  {
  }

  // ---------------------------------------------------------------------------------------------------
  // New requests.

  /** A request that takes the place of no call holding its final frame. */
  ghost predicate SparesHeld(t: Seam, op: Op) {
    op.Arrives? && op.id in t.tracked && t.tracked[op.id] < |t.calls| ==> t.calls[t.tracked[op.id]].held.None?
  }

  lemma TakeCallKeepsBooks(t: Seam, id: RequestId, modern: bool, session: Option<SessionId>)
    requires Books(t) && SparesHeld(t, Arrives(id, modern, session))
    ensures Books(TakeCall(t, id, modern, session)) && TakeCall(t, id, modern, session).concluded == t.concluded
  {
    var t' := TakeCall(t, id, modern, session);
    assert OneMore(t, t', id, session) && t'.calls[|t.calls|].held.None?;
    NewIsBooked(t, t', id, session);
  }

  lemma NewIsBooked(t: Seam, t': Seam, id: RequestId, session: Option<SessionId>)
    requires Books(t) && OneMore(t, t', id, session) && t'.calls[|t.calls|].held.None? && t'.concluded == t.concluded
    requires id in t.tracked && t.tracked[id] < |t.calls| ==> t.calls[t.tracked[id]].held.None?
    ensures Books(t')
  {
  }

  // ---------------------------------------------------------------------------------------------------
  // Runs.

  lemma AbandonOneKeepsBooks(t: Seam, id: RequestId)
    requires Books(t)
    ensures var t' := if id in t.tracked && t.tracked[id] < |t.calls| then Abandon(t, t.tracked[id]) else t;
            Books(t') && |t'.concluded| <= |t.concluded|
  {
    if id in t.tracked {
      AbandonKeepsBooks(t, t.tracked[id]);
    }
  }

  lemma {:induction false} AbandonAllKeepsBooks(t: Seam, ids: seq<RequestId>)
    requires Books(t)
    ensures Books(AbandonAll(t, ids)) && |AbandonAll(t, ids).concluded| <= |t.concluded|
  {
    if ids != [] {
      var n := |ids| - 1;
      AbandonAllKeepsBooks(t, ids[..n]);
      AbandonOneKeepsBooks(AbandonAll(t, ids[..n]), ids[n]);
    }
  }

  /** When the connection is lost nothing is left on the books. */
  lemma LoseClearsBooks(t: Seam)
    requires Books(t)
    ensures var t' := Lose(t); Books(t') && t'.tracked == map[] && t'.concluded == [] && t'.sessions == map[]
  {
    var ids := Listed(t.tracked.Keys);
    AbandonAllKeepsBooks(t, ids);
    LoseClearsTally(t);
    NoneTrackedNoneConcluded(AbandonAll(t, ids));
  }

  lemma NoneTrackedNoneConcluded(t: Seam)
    requires ConcludedOk(t)
    ensures t.tracked == map[] ==> t.concluded == []
  {
    if t.concluded != [] {
      assert Tracks(t, t.concluded[0]);
    }
  }

  /** What comes from a handler, or from its round's timer. */
  lemma HandlerKeepsBooks(t: Seam, op: Op)
    requires Books(t) && HeldOk(t) && |t.concluded| <= MAX_IDLE_SESSIONS && SparesHeld(t, op)
    requires op.EmitsAttempt? || op.EmitsOutcome? || op.RoundTimer? || op.HandlerAnswers?
    ensures Books(Step(t, op)) && |Step(t, op).concluded| <= MAX_IDLE_SESSIONS
  {
    match op
    case EmitsAttempt(c, e) => if c < |t.calls| { EmitAttemptKeepsBooks(t, c, e); }
    case EmitsOutcome(c, e) => if c < |t.calls| { EmitOutcomeKeepsBooks(t, c, e); }
    case RoundTimer(c) => if c < |t.calls| { TimerKeepsBooks(t, c); }
    case HandlerAnswers(c, final) => if c < |t.calls| { WriteKeepsBooks(t, c, final); }
  }

  lemma AsideKeepsBooks(t: Seam, op: Op)
    requires Books(t) && (op.AttemptTimeout? || op.Forgets? || op.PeerAnswers?)
    ensures Books(Step(t, op)) && Step(t, op).concluded == t.concluded
  {
    match op
    case AttemptTimeout(p) => if p < |t.pendings| { SettlingKeepsBooks(t, TimeOut(t, p)); }
    case Forgets(id) => SettlingKeepsBooks(t, Step(t, op));
    case PeerAnswers(wire, answer) => SettlingKeepsBooks(t, PeerAnswer(t, wire, answer));
  }

  lemma OtherKeepsBooks(t: Seam, op: Op)
    requires Books(t) && HeldOk(t) && |t.concluded| <= MAX_IDLE_SESSIONS && SparesHeld(t, op)
    requires op.AttemptTimeout? || op.Cancels? || op.Forgets? || op.PeerAnswers? || op.ConnectionLost?
    ensures Books(Step(t, op)) && |Step(t, op).concluded| <= MAX_IDLE_SESSIONS
  {
    if op.Cancels? {
      if op.call < |t.calls| {
        CancelKeepsBooks(t, op.id, op.call);
      }
    } else if op.ConnectionLost? {
      LoseClearsBooks(t);
    } else {
      AsideKeepsBooks(t, op);
    }
  }

  lemma StepKeepsBooks(t: Seam, op: Op)
    requires Books(t) && HeldOk(t) && |t.concluded| <= MAX_IDLE_SESSIONS && SparesHeld(t, op)
    ensures Books(Step(t, op)) && |Step(t, op).concluded| <= MAX_IDLE_SESSIONS
  {
    if op.Arrives? {
      TakeCallKeepsBooks(t, op.id, op.modern, op.session);
    } else if op.Retries? {
      RetryKeepsBooks(t, op.id, op.token, op.named, op.responses);
    } else if op.EmitsAttempt? || op.EmitsOutcome? || op.RoundTimer? || op.HandlerAnswers? {
      HandlerKeepsBooks(t, op);
    } else {
      OtherKeepsBooks(t, op);
    }
  }

  lemma TimerKeepsBooks(t: Seam, c: CallRef)
    requires Books(t) && c < |t.calls|
    ensures Books(TimeRound(t, c)) && TimeRound(t, c).concluded == t.concluded
  {
    OneUnbooked(t, TimeRound(t, c), c);
  }

  lemma AttemptKeepsHeld(t: Seam, c: CallRef, e: Event)
    requires c < |t.calls|
    ensures var t' := EmitAttempt(t, c, e);
            t'.concluded == t.concluded && |t'.calls| == |t.calls|
            && forall k :: 0 <= k < |t.calls| ==> t'.calls[k].held == t.calls[k].held
  {
  }

  lemma EmitAttemptKeepsBooks(t: Seam, c: CallRef, e: Event)
    requires Books(t) && c < |t.calls|
    ensures Books(EmitAttempt(t, c, e)) && EmitAttempt(t, c, e).concluded == t.concluded
  {
    AttemptIsAside(t, c, e);
    AttemptKeepsHeld(t, c, e);
    UnbookedKeeps(t, EmitAttempt(t, c, e));
  }

  lemma EmitOutcomeKeepsBooks(t: Seam, c: CallRef, e: Event)
    requires Books(t) && c < |t.calls|
    ensures Books(EmitOutcome(t, c, e)) && EmitOutcome(t, c, e).concluded == t.concluded
  {
    OneUnbooked(t, EmitOutcome(t, c, e), c);
  }

  lemma SettlingKeepsBooks(t: Seam, t': Seam)
    requires Books(t) && t' == t.(pendings := t'.pendings, wires := t'.wires, cancelledIds := t'.cancelledIds)
    ensures Books(t')
  {
  }

  lemma CancelKeepsBooks(t: Seam, id: RequestId, c: CallRef)
    requires Books(t) && c < |t.calls|
    ensures Books(Cancel(t, id, c)) && |Cancel(t, id, c).concluded| <= |t.concluded|
  {
    if Tracks(t, c) && id in t.calls[c].ids {
      AbandonKeepsBooks(t, c);
      UnbookedKeeps(Abandon(t, c), Cancel(t, id, c));
    }
  }

  /** No request of the run takes the place of a call that holds its final frame then. */
  ghost predicate AllSpareHeld(ops: seq<Op>) {
    forall i :: 0 <= i < |ops| ==> SparesHeld(Run(EMPTY, ops[..i]), ops[i])
  }

  lemma AllSpareFront(ops: seq<Op>)
    requires AllSpareHeld(ops) && ops != []
    ensures AllSpareHeld(ops[..|ops| - 1])
  {
    var front := ops[..|ops| - 1];
    assert forall i :: 0 <= i < |front| ==> front[..i] == ops[..i];
  }

  lemma {:induction false} RunKeepsBooks(ops: seq<Op>)
    requires AllSpareHeld(ops)
    ensures Books(Run(EMPTY, ops)) && |Run(EMPTY, ops).concluded| <= MAX_IDLE_SESSIONS
  {
    if ops != [] {
      var front := ops[..|ops| - 1];
      AllSpareFront(ops);
      RunKeepsBooks(front);
      RunKeeps(front);
      StepKeepsBooks(Run(EMPTY, front), ops[|ops| - 1]);
    }
  }

  /** The calls kept for a retry are being served, each holding its frame, and no more are kept than may be. */
  lemma KeptCallsAreServed(ops: seq<Op>, i: nat)
    requires AllSpareHeld(ops) && i < |Run(EMPTY, ops).concluded|
    ensures var t := Run(EMPTY, ops);
            && |t.concluded| <= MAX_IDLE_SESSIONS
            && t.concluded[i] < |t.calls| && Tracks(t, t.concluded[i]) && t.calls[t.concluded[i]].held.Some?
  {
    RunKeepsBooks(ops);
  }

  /** No request of the run reuses the id of one still being served then. */
  ghost predicate AllDistinct(ops: seq<Op>) {
    forall i :: 0 <= i < |ops| ==> ops[i].Arrives? ==> ops[i].id !in Run(EMPTY, ops[..i]).tracked
  }

  lemma DistinctDisplacesNone(ops: seq<Op>)
    requires AllDistinct(ops)
    ensures AllSpareHeld(ops) && Displaced(ops) == multiset{}
  {
    NoneDisplaced(ops, |ops|);
    assert ops[..|ops|] == ops;
  }

  /**
   * Where no id is used again in flight all the books are right at any moment: a session counts the requests being served
   * that carry it, and is kept idle exactly when that is none; idle sessions and concluded calls stay within their bound.
   */
  lemma BooksAreRight(ops: seq<Op>, s: SessionId)
    requires AllDistinct(ops)
    ensures var t := Run(EMPTY, ops);
            && |t.idle| <= MAX_IDLE_SESSIONS && |t.concluded| <= MAX_IDLE_SESSIONS
            && (s in t.sessions ==> t.sessions[s].live == |Carrying(t, s)|)
            && (s in t.idle <==> s in t.sessions && t.sessions[s].live == 0)
  {
    DistinctDisplacesNone(ops);
    RunKeepsBooks(ops);
    RunTally(ops);
  }
}
