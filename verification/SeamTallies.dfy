/**
 * How the tool counts the requests of a session, over every run. A request under an id still being served takes the
 * place of the one there, which is never counted down again: a session counts the requests that carry it and those it
 * lost so.
 */
module SeamTallies {
  import opened Records
  import opened Ordering
  import opened Seams
  import opened SeamInvariants
  import opened SeamSteps
  import opened SeamRuns

  // ---------------------------------------------------------------------------------------------------
  // Sessions.

  /** The requests being served that carry a session. */
  ghost function Carrying(t: Seam, s: SessionId): set<RequestId> {
    set id | id in t.tracked && t.tracked[id] < |t.calls| && t.calls[t.tracked[id]].session == Some(s)
  }

  /**
   * Each session counts the requests that carry it and those that were lost count of, and those that carry it all have
   * its numbering.
   */
  ghost predicate Counted(t: Seam, lost: multiset<SessionId>) {
    && (forall s :: s in t.sessions ==> t.sessions[s].live == |Carrying(t, s)| + lost[s])
    && (forall s :: s in lost ==> s in t.sessions)
    && (forall id :: id in t.tracked ==>
          && t.tracked[id] < |t.calls| && t.calls[t.tracked[id]].original.id == id
          && (t.calls[t.tracked[id]].session.Some? ==>
                var s := t.calls[t.tracked[id]].session.value;
                s in t.sessions && t.sessions[s].numbering == t.calls[t.tracked[id]].numbering))
  }

  /** A session is idle exactly when no request is carrying it. */
  ghost predicate IdleOk(t: Seam) {
    && NoRepeats(t.idle)
    && forall s :: s in t.idle <==> s in t.sessions && t.sessions[s].live == 0
  }

  /** What the books on sessions look at. */
  ghost predicate SameBooks(t: Seam, t': Seam) {
    && t'.tracked == t.tracked && t'.sessions == t.sessions && t'.idle == t.idle && |t'.calls| == |t.calls|
    && forall c :: 0 <= c < |t.calls| ==> SameIdentity(t.calls[c], t'.calls[c])
  }

  ghost predicate SameIdentity(call: Call, call': Call) {
    call'.original == call.original && call'.session == call.session && call'.numbering == call.numbering
  }

  lemma SameBooksKeep(t: Seam, t': Seam, lost: multiset<SessionId>)
    requires Counted(t, lost) && SameBooks(t, t')
    ensures Counted(t', lost)
    ensures IdleOk(t) ==> IdleOk(t')
  {
    forall s
      ensures Carrying(t', s) == Carrying(t, s)
    {
    }
  }

  lemma DropSessionKeeps(t: Seam, s: SessionId, lost: multiset<SessionId>)
    requires Counted(t, lost) && IdleOk(t) && s in t.sessions && t.sessions[s].live == 0
    ensures Counted(DropSession(t, s), lost) && IdleOk(DropSession(t, s))
  {
    var t' := DropSession(t, s);
    DroppingDrops(t.idle, s);
    assert Carrying(t, s) == {};
    forall r
      ensures Carrying(t', r) == Carrying(t, r)
    {
    }
    forall id | id in t.tracked && t.calls[t.tracked[id]].session.Some?
      ensures t.calls[t.tracked[id]].session.value != s
    {
      assert id !in Carrying(t, s);
    }
  }

  /** Eviction drops only sessions that no request carries, and no more than it must. */
  lemma {:induction false} EvictIdleKeeps(t: Seam, lost: multiset<SessionId>)
    requires Counted(t, lost) && IdleOk(t)
    ensures Counted(EvictIdle(t), lost) && IdleOk(EvictIdle(t)) && |EvictIdle(t).idle| <= MAX_IDLE_SESSIONS
    ensures EvictIdle(t).sessions.Keys <= t.sessions.Keys
    decreases |t.idle|
  {
    if |t.idle| > MAX_IDLE_SESSIONS {
      DropSessionKeeps(t, t.idle[0], lost);
      EvictIdleKeeps(DropSession(t, t.idle[0]), lost);
    }
  }

  /** With the count made right, before anything is dropped or kept. */
  ghost function Recounted(t: Seam, s: SessionId): Seam
    requires s in t.sessions
  {
    t.(sessions := t.sessions[s := t.sessions[s].(live := t.sessions[s].live - 1)])
  }

  lemma RecountedIsRight(t: Seam, s: SessionId, lost: multiset<SessionId>)
    requires Counted(t, lost + multiset{s})
    ensures s in t.sessions && Counted(Recounted(t, s), lost)
  {
  }

  /** A session whose call goes on is kept idle. */
  lemma LeftIdle(t: Seam, s: SessionId, lost: multiset<SessionId>)
    requires Counted(t, lost + multiset{s}) && IdleOk(t) && s in t.sessions && t.sessions[s].live == 1
    ensures var t' := KeepIdle(Recounted(t, s), s); Counted(t', lost) && IdleOk(t') && |t'.idle| <= MAX_IDLE_SESSIONS
  {
    var left := Recounted(t, s);
    RecountedIsRight(t, s, lost);
    DroppingDrops(t.idle, s);
    var idle := left.(idle := Dropping(t.idle, s) + [s]);
    SameCarriers(left, idle, lost);
    assert forall x :: x in idle.idle <==> x in Dropping(t.idle, s) || x == s;
    EvictIdleKeeps(idle, lost);
  }

  lemma LeaveKeeps(t: Seam, s: SessionId, final: bool, lost: multiset<SessionId>)
    requires Counted(t, lost + multiset{s}) && IdleOk(t) && |t.idle| <= MAX_IDLE_SESSIONS
    ensures var t' := LeaveSession(t, s, final); Counted(t', lost) && IdleOk(t') && |t'.idle| <= MAX_IDLE_SESSIONS
  {
    RecountedIsRight(t, s, lost);
    if t.sessions[s].live == 1 {
      LeftForGood(t, s, lost);
      LeftIdle(t, s, lost);
      DroppingDrops(t.idle, s);
    }
  }

  lemma SameCarriers(t: Seam, t': Seam, lost: multiset<SessionId>)
    requires Counted(t, lost) && t' == t.(idle := t'.idle)
    ensures Counted(t', lost)
  {
  }

  /** The last request of a session ends it. */
  lemma LeftForGood(t: Seam, s: SessionId, lost: multiset<SessionId>)
    requires Counted(t, lost + multiset{s}) && IdleOk(t) && s in t.sessions && t.sessions[s].live == 1
    ensures Counted(DropSession(Recounted(t, s), s), lost) && IdleOk(DropSession(Recounted(t, s), s))
  {
    var left := Recounted(t, s);
    RecountedIsRight(t, s, lost);
    var idle := left.(idle := t.idle + [s]);
    SameCarriers(left, idle, lost);
    assert s !in t.idle;
    assert forall x :: x in idle.idle <==> x in t.idle || x == s;
    DropSessionKeeps(idle, s, lost);
    DroppingDrops(t.idle, s);
    DroppingDrops(idle.idle, s);
    DroppingLast(t.idle, s);
  }

  lemma DroppedCarrying(t: Seam, c: CallRef, s: SessionId, lost: multiset<SessionId>)
    requires Counted(t, lost) && c < |t.calls| && Tracks(t, c)
    ensures |Carrying(t, s)| == |Carrying(Dropped(t, c), s)| + if t.calls[c].session == Some(s) then 1 else 0
  {
    var id := t.calls[c].original.id;
    CarryingWithout(t, Dropped(t, c), id, s);
    if t.calls[c].session == Some(s) {
      assert id in Carrying(t, s);
    } else {
      assert Carrying(t, s) - {id} == Carrying(t, s);
    }
  }

  lemma CarryingWithout(t: Seam, t': Seam, id: RequestId, s: SessionId)
    requires t'.tracked == t.tracked - {id} && |t'.calls| == |t.calls|
    requires forall k :: 0 <= k < |t.calls| ==> t'.calls[k].session == t.calls[k].session
    ensures Carrying(t', s) == Carrying(t, s) - {id}
  {
  }

  /** One request less is served, and counts for its session no more than it did. */
  lemma FewerCounts(t: Seam, t': Seam, id: RequestId, session: Option<SessionId>, lost: multiset<SessionId>)
    requires Counted(t, lost) && t'.sessions == t.sessions && t'.tracked == t.tracked - {id} && |t'.calls| == |t.calls|
    requires forall c :: 0 <= c < |t.calls| ==> SameIdentity(t.calls[c], t'.calls[c])
    requires session.Some? ==> session.value in t.sessions
    requires forall s :: s in t.sessions ==> |Carrying(t, s)| == |Carrying(t', s)| + if session == Some(s) then 1 else 0
    ensures session.None? ==> Counted(t', lost)
    ensures session.Some? ==> Counted(t', lost + multiset{session.value})
  {
    var fewer := lost + OneOf(session);
    forall s | s in t'.sessions
      ensures t'.sessions[s].live == |Carrying(t', s)| + fewer[s]
    {
    }
    forall id | id in t'.tracked
      ensures t'.tracked[id] < |t'.calls| && t'.tracked[id] == t.tracked[id]
    {
      assert SameIdentity(t.calls[t.tracked[id]], t'.calls[t.tracked[id]]);
    }
    assert Counted(t', fewer);
    assert session.None? ==> fewer == lost;
  }

  lemma DroppedCounts(t: Seam, c: CallRef, lost: multiset<SessionId>)
    requires Counted(t, lost) && c < |t.calls| && Tracks(t, c)
    ensures t.calls[c].session.None? ==> Counted(Dropped(t, c), lost)
    ensures t.calls[c].session.Some? ==> Counted(Dropped(t, c), lost + multiset{t.calls[c].session.value})
  {
    var t', session := Dropped(t, c), t.calls[c].session;
    forall s | s in t.sessions
      ensures |Carrying(t, s)| == |Carrying(t', s)| + if session == Some(s) then 1 else 0
    {
      DroppedCarrying(t, c, s, lost);
    }
    FewerCounts(t, t', t.calls[c].original.id, session, lost);
  }

  // ---------------------------------------------------------------------------------------------------
  // What every step keeps.

  /** The tally of the sessions: counted, idle exactly when the count is none, and within the bound. */
  ghost predicate Tallied(t: Seam, lost: multiset<SessionId>) {
    Counted(t, lost) && IdleOk(t) && |t.idle| <= MAX_IDLE_SESSIONS
  }

  lemma SameTally(t: Seam, t': Seam, lost: multiset<SessionId>)
    requires Tallied(t, lost) && SameBooks(t, t')
    ensures Tallied(t', lost)
  {
    SameBooksKeep(t, t', lost);
  }

  lemma ReleaseTally(t: Seam, c: CallRef, final: bool, lost: multiset<SessionId>)
    requires Tallied(t, lost) && c < |t.calls|
    ensures Tallied(Release(t, c, final), lost)
  {
    if Tracks(t, c) {
      DroppedCounts(t, c, lost);
      if t.calls[c].session.Some? {
        LeaveKeeps(Dropped(t, c), t.calls[c].session.value, final, lost);
      }
    }
  }

  lemma AbandonTally(t: Seam, c: CallRef, lost: multiset<SessionId>)
    requires Tallied(t, lost) && c < |t.calls|
    ensures Tallied(Abandon(t, c), lost)
  {
    var cancelled := t.(calls := t.calls[c := t.calls[c].(cancelled := true)]);
    SameTally(t, cancelled, lost);
    ReleaseTally(cancelled, c, true, lost);
  }

  lemma {:induction false} EvictTally(t: Seam, i: nat, lost: multiset<SessionId>)
    requires Tallied(t, lost)
    ensures Tallied(EvictConcluded(t, i), lost)
    decreases |t.concluded| - i
  {
    if |t.concluded| > MAX_IDLE_SESSIONS && i < |t.concluded| && t.concluded[i] < |t.calls| {
      var t' := Abandon(t, t.concluded[i]);
      AbandonTally(t, t.concluded[i], lost);
      if |t'.concluded| <= |t.concluded| {
        EvictTally(t', if |t'.concluded| < |t.concluded| then i else i + 1, lost);
      }
    }
  }

  lemma KeepTally(t: Seam, c: CallRef, final: Final, lost: multiset<SessionId>)
    requires Tallied(t, lost) && c < |t.calls|
    ensures Tallied(KeepConcluded(t, c, final), lost)
  {
    var call := t.calls[c];
    var kept := t.(calls := t.calls[c := call.(held := Some(final))],
                   concluded := DroppingHeld(t.calls, t.concluded, call.original.id) + [c]);
    SameTally(t, kept, lost);
    EvictTally(kept, 0, lost);
  }

  lemma EndRoundTally(t: Seam, c: CallRef, lost: multiset<SessionId>)
    requires Tallied(t, lost) && c < |t.calls|
    ensures Tallied(EndRound(t, c), lost)
  {
    SameTally(t, EndRound(t, c), lost);
  }

  lemma ConcludeTally(t: Seam, c: CallRef, final: Final, lost: multiset<SessionId>)
    requires Tallied(t, lost) && c < |t.calls|
    ensures Tallied(ConcludeCall(t, c, final), lost)
  {
    var call := t.calls[c];
    if final.kind.Failure? && call.buffered != [] {
      EndRoundTally(t, c, lost);
      KeepTally(EndRound(t, c), c, final, lost);
    } else {
      var answered := t.(calls := t.calls[c := call.(buffered := [])],
                         sent := if call.current.None? then t.sent
                                 else t.sent + [FinalOut(call.current.value, c, final, call.buffered)]);
      SameTally(t, answered, lost);
      ReleaseTally(answered, c, !final.kind.Asks?, lost);
    }
  }

  lemma MarkedTally(t: Seam, c: CallRef, lost: multiset<SessionId>)
    requires Tallied(t, lost) && c < |t.calls|
    ensures Tallied(Marked(t, c), lost)
  {
    SameTally(t, Marked(t, c), lost);
  }

  lemma FinishTally(t: Seam, c: CallRef, final: Final, lost: multiset<SessionId>)
    requires Tallied(t, lost) && c < |t.calls|
    ensures Tallied(FinishCall(t, c, final), lost)
  {
    MarkedTally(t, c, lost);
    if t.calls[c].round.Some? {
      KeepTally(Marked(t, c), c, final, lost);
    } else {
      ConcludeTally(Marked(t, c), c, final, lost);
    }
  }

  lemma FinishLegacyTally(t: Seam, c: CallRef, final: Final, lost: multiset<SessionId>)
    requires Tallied(t, lost) && c < |t.calls|
    ensures Tallied(FinishLegacy(t, c, final), lost)
  {
    SameTally(t, LegacyGone(t, c, final), lost);
    ReleaseTally(LegacyGone(t, c, final), c, !final.kind.Asks?, lost);
  }

  lemma OutboundTally(t: Seam, c: CallRef, final: Final, lost: multiset<SessionId>)
    requires Tallied(t, lost) && c < |t.calls|
    ensures Tallied(Outbound(t, c, final), lost)
  {
    var id := t.calls[c].original.id;
    if id in t.cancelledIds || !Serves(t, id) {
      SameTally(t, Outbound(t, c, final), lost);
    } else if t.calls[t.tracked[id]].modern {
      FinishTally(t, t.tracked[id], final, lost);
    } else {
      FinishLegacyTally(t, t.tracked[id], final, lost);
    }
  }

  lemma WriteTally(t: Seam, c: CallRef, final: Final, lost: multiset<SessionId>)
    requires Tallied(t, lost) && c < |t.calls|
    ensures Tallied(WriteFinal(t, c, final), lost)
  {
    SameTally(t, Noted(t, c), lost);
    OutboundTally(Noted(t, c), c, final, lost);
  }

  lemma ResumeTally(t: Seam, c: CallRef, request: Request, named: Option<SessionId>, responses: map<Id, Answer>,
                    lost: multiset<SessionId>)
    requires Tallied(t, lost) && c < |t.calls| && t.calls[c].round.Some?
    ensures Tallied(Resume(t, c, request, named, responses), lost)
  {
    SameTally(t, Resume(t, c, request, named, responses), lost);
  }

  lemma HeldTally(t: Seam, c: CallRef, concluded: seq<CallRef>, final: Final, lost: multiset<SessionId>)
    requires Tallied(t, lost) && c < |t.calls|
    ensures Tallied(ConcludeCall(t.(calls := t.calls[c := t.calls[c].(held := None)], concluded := concluded), c, final), lost)
  {
    var unheld := t.(calls := t.calls[c := t.calls[c].(held := None)], concluded := concluded);
    SameTally(t, unheld, lost);
    ConcludeTally(unheld, c, final, lost);
  }

  lemma AcceptTally(t: Seam, c: CallRef, request: Request, named: Option<SessionId>, responses: map<Id, Answer>,
                    lost: multiset<SessionId>)
    requires Tallied(t, lost) && c < |t.calls| && t.calls[c].round.Some?
    ensures Tallied(AcceptRetry(t, c, request, named, responses), lost)
  {
    var resumed := Resume(t, c, request, named, responses);
    var call := resumed.calls[c];
    ResumeTally(t, c, request, named, responses, lost);
    if call.held.Some? {
      HeldTally(resumed, c, DroppingHeld(t.calls, t.concluded, call.original.id), call.held.value, lost);
    } else if !call.finished && CarriesAttempt(call.buffered) {
      SameTally(resumed, resumed.(calls := resumed.calls[c := call.(scheduled := true)]), lost);
    }
  }

  lemma TryTokenTally(t: Seam, request: Request, token: Token, named: Option<SessionId>, responses: map<Id, Answer>,
                      lost: multiset<SessionId>)
    requires Tallied(t, lost)
    ensures Tallied(TryToken(t, request, token, named, responses), lost)
  {
    if Resumes(t, token) {
      AcceptTally(t, t.rounds[token], request, named, responses, lost);
    } else {
      SameTally(t, TryToken(t, request, token, named, responses), lost);
    }
  }

  lemma RetryTally(t: Seam, id: RequestId, token: Token, named: Option<SessionId>, responses: map<Id, Answer>,
                   lost: multiset<SessionId>)
    requires Tallied(t, lost)
    ensures Tallied(TakeRetry(t, id, token, named, responses), lost)
  {
    var arrived := t.(arrivals := t.arrivals + 1);
    SameTally(t, arrived, lost);
    RetryTriesToken(t, id, token, named, responses);
    TryTokenTally(arrived, Request(id, t.arrivals), token, named, responses, lost);
  }

  lemma AttemptIsAside(t: Seam, c: CallRef, e: Event)
    requires c < |t.calls|
    ensures SameBooks(t, EmitAttempt(t, c, e))
  {
  }

  lemma OutcomeIsAside(t: Seam, c: CallRef, e: Event)
    requires c < |t.calls|
    ensures SameBooks(t, EmitOutcome(t, c, e))
  {
  }

  lemma EmissionTally(t: Seam, c: CallRef, e: Event, lost: multiset<SessionId>)
    requires Tallied(t, lost) && c < |t.calls|
    ensures Tallied(EmitAttempt(t, c, e), lost) && Tallied(EmitOutcome(t, c, e), lost)
  {
    AttemptIsAside(t, c, e);
    OutcomeIsAside(t, c, e);
    SameTally(t, EmitAttempt(t, c, e), lost);
    SameTally(t, EmitOutcome(t, c, e), lost);
  }

  lemma TimerTally(t: Seam, c: CallRef, lost: multiset<SessionId>)
    requires Tallied(t, lost) && c < |t.calls|
    ensures Tallied(TimeRound(t, c), lost)
  {
    var due := t.(calls := t.calls[c := t.calls[c].(scheduled := false)]);
    SameTally(t, due, lost);
    EndRoundTally(due, c, lost);
  }

  lemma CancelTally(t: Seam, id: RequestId, c: CallRef, lost: multiset<SessionId>)
    requires Tallied(t, lost) && c < |t.calls|
    ensures Tallied(Cancel(t, id, c), lost)
  {
    if Tracks(t, c) && id in t.calls[c].ids {
      AbandonTally(t, c, lost);
      SameTally(Abandon(t, c), Cancel(t, id, c), lost);
    }
  }

  lemma AsideTally(t: Seam, t': Seam, lost: multiset<SessionId>)
    requires Tallied(t, lost)
    requires t' == t.(pendings := t'.pendings, wires := t'.wires, cancelledIds := t'.cancelledIds)
    ensures Tallied(t', lost)
  {
    SameTally(t, t', lost);
  }

  lemma {:induction false} AbandonAllUntracks(t: Seam, ids: seq<RequestId>)
    requires TrackedOk(t)
    ensures TrackedOk(AbandonAll(t, ids))
    ensures forall id :: id in AbandonAll(t, ids).tracked <==> id in t.tracked && id !in ids
  {
    if ids != [] {
      var n := |ids| - 1;
      AbandonAllUntracks(t, ids[..n]);
      var before, id := AbandonAll(t, ids[..n]), ids[n];
      assert ids == ids[..n] + [id];
      if id in before.tracked {
        AbandonUntracks(before, before.tracked[id]);
        AbandonIsSteady(before, before.tracked[id], 0);
        SteadyTracks(before, Abandon(before, before.tracked[id]));
      }
    }
  }

  lemma SteadyTracks(t: Seam, t': Seam)
    requires TrackedOk(t) && Steady(t, t', 0, None)
    ensures TrackedOk(t')
  {
    forall id | id in t'.tracked
      ensures t'.calls[t'.tracked[id]].original.id == id
    {
      assert Goes(t.calls[t'.tracked[id]], t'.calls[t'.tracked[id]], 0, false);
    }
  }

  lemma AbandonUntracks(t: Seam, c: CallRef)
    requires c < |t.calls| && Tracks(t, c)
    ensures Abandon(t, c).tracked == t.tracked - {t.calls[c].original.id}
  {
    var cancelled := t.(calls := t.calls[c := t.calls[c].(cancelled := true)]);
    if t.calls[c].session.Some? {
      LeavingIsQuiet(Dropped(cancelled, c), t.calls[c].session.value, true);
    }
  }

  /** When the connection is lost nothing is left to count. */
  lemma LoseClearsTally(t: Seam)
    requires TrackedOk(t)
    ensures Lose(t).tracked == map[] && Lose(t).sessions == map[] && Tallied(Lose(t), multiset{})
  {
    AbandonAllUntracks(t, Listed(t.tracked.Keys));
    assert AbandonAll(t, Listed(t.tracked.Keys)).tracked == map[];
  }

  // ---------------------------------------------------------------------------------------------------
  // New requests.

  /** The session of the call whose place a request under this id takes. */
  function Displacing(t: Seam, id: RequestId): Option<SessionId> {
    if id in t.tracked && t.tracked[id] < |t.calls| then t.calls[t.tracked[id]].session else None
  }

  function OneOf(session: Option<SessionId>): multiset<SessionId> {
    if session.Some? then multiset{session.value} else multiset{}
  }

  /** One call more, tracked under its id whatever was. */
  ghost predicate OneMore(t: Seam, t': Seam, id: RequestId, session: Option<SessionId>) {
    && |t'.calls| == |t.calls| + 1 && (forall c :: 0 <= c < |t.calls| ==> t'.calls[c] == t.calls[c])
    && t'.calls[|t.calls|].session == session && t'.calls[|t.calls|].original.id == id
    && t'.tracked == t.tracked[id := |t.calls|]
  }

  lemma CarryingWith(t: Seam, t': Seam, id: RequestId, session: Option<SessionId>, s: SessionId)
    requires OneMore(t, t', id, session)
    requires forall x :: x in t.tracked ==> t.tracked[x] < |t.calls|
    ensures Carrying(t', s) == (Carrying(t, s) - {id}) + if session == Some(s) then {id} else {}
    ensures id in Carrying(t, s) <==> Displacing(t, id) == Some(s)
  {
  }

  lemma NewCarrying(t: Seam, t': Seam, id: RequestId, session: Option<SessionId>, s: SessionId)
    requires OneMore(t, t', id, session)
    requires forall x :: x in t.tracked ==> t.tracked[x] < |t.calls|
    ensures |Carrying(t', s)| + OneOf(Displacing(t, id))[s] == |Carrying(t, s)| + if session == Some(s) then 1 else 0
  {
    CarryingWith(t, t', id, session, s);
    if Displacing(t, id) != Some(s) {
      assert Carrying(t, s) - {id} == Carrying(t, s);
    }
  }

  ghost predicate CountedUp(t: Seam, t': Seam, session: Option<SessionId>)
    requires |t'.calls| == |t.calls| + 1
  {
    && (session.None? ==> t'.sessions == t.sessions)
    && (session.Some? ==>
          var known := if session.value in t.sessions then t.sessions[session.value] else ToolSession(t.numberings, 0);
          && t'.sessions == t.sessions[session.value := known.(live := known.live + 1)]
          && t'.calls[|t.calls|].numbering == known.numbering)
  }

  lemma NewRequestLive(t: Seam, t': Seam, id: RequestId, session: Option<SessionId>, lost: multiset<SessionId>, s: SessionId)
    requires Counted(t, lost) && OneMore(t, t', id, session) && CountedUp(t, t', session) && s in t'.sessions
    ensures t'.sessions[s].live == |Carrying(t', s)| + (lost + OneOf(Displacing(t, id)))[s]
  {
    NewCarrying(t, t', id, session, s);
    if s !in t.sessions {
      assert Carrying(t, s) == {};
    }
  }

  lemma NewRequestTracked(t: Seam, t': Seam, id: RequestId, session: Option<SessionId>, lost: multiset<SessionId>)
    requires Counted(t, lost) && OneMore(t, t', id, session) && CountedUp(t, t', session)
    ensures forall s :: s in lost + OneOf(Displacing(t, id)) ==> s in t'.sessions
    ensures forall x :: x in t'.tracked ==>
              && t'.tracked[x] < |t'.calls| && t'.calls[t'.tracked[x]].original.id == x
              && (t'.calls[t'.tracked[x]].session.Some? ==>
                    var s := t'.calls[t'.tracked[x]].session.value;
                    s in t'.sessions && t'.sessions[s].numbering == t'.calls[t'.tracked[x]].numbering)
  {
  }

  lemma NewRequestCounts(t: Seam, t': Seam, id: RequestId, session: Option<SessionId>, lost: multiset<SessionId>)
    requires Counted(t, lost) && OneMore(t, t', id, session) && CountedUp(t, t', session)
    ensures Counted(t', lost + OneOf(Displacing(t, id)))
  {
    forall s | s in t'.sessions
      ensures t'.sessions[s].live == |Carrying(t', s)| + (lost + OneOf(Displacing(t, id)))[s]
    {
      NewRequestLive(t, t', id, session, lost, s);
    }
    NewRequestTracked(t, t', id, session, lost);
  }

  lemma NewIsNotIdle(t: Seam, session: SessionId, lost: multiset<SessionId>)
    requires Tallied(t, lost)
    ensures IdleOk(AcquireSession(t, session).0) && |AcquireSession(t, session).0.idle| <= MAX_IDLE_SESSIONS
  {
    DroppingDrops(t.idle, session);
  }

  /** A new request counts for its session, and the one whose place it takes is lost count of. */
  lemma TakeCallTally(t: Seam, id: RequestId, modern: bool, session: Option<SessionId>, lost: multiset<SessionId>)
    requires Tallied(t, lost)
    ensures Tallied(TakeCall(t, id, modern, session), lost + OneOf(Displacing(t, id)))
  {
    var t' := TakeCall(t, id, modern, session);
    assert OneMore(t, t', id, session);
    NewRequestCounts(t, t', id, session, lost);
    if session.Some? {
      NewIsNotIdle(t, session.value, lost);
    }
  }

  // ---------------------------------------------------------------------------------------------------
  // Runs.

  /** The count is lost exactly here: a request arrives under the id of one still being served that carries a session. */
  predicate Displaces(t: Seam, op: Op) {
    op.Arrives? && Displacing(t, op.id).Some?
  }

  /** The sessions whose requests were displaced since the connection was last lost, as often as they were. */
  function Displaced(ops: seq<Op>): multiset<SessionId> {
    if ops == [] then multiset{} else
      var front, last := ops[..|ops| - 1], ops[|ops| - 1];
      match last
      case Arrives(id, _, _) => Displaced(front) + OneOf(Displacing(Run(EMPTY, front), id))
      case ConnectionLost => multiset{}
      case _ => Displaced(front)
  }

  lemma HandlerTally(t: Seam, op: Op, lost: multiset<SessionId>)
    requires Tallied(t, lost) && TrackedOk(t)
    requires op.EmitsAttempt? || op.EmitsOutcome? || op.RoundTimer? || op.HandlerAnswers?
    ensures Tallied(Step(t, op), lost)
  {
    match op
    case EmitsAttempt(c, e) => if c < |t.calls| { EmissionTally(t, c, e, lost); }
    case EmitsOutcome(c, e) => if c < |t.calls| { EmissionTally(t, c, e, lost); }
    case RoundTimer(c) => if c < |t.calls| { TimerTally(t, c, lost); }
    case HandlerAnswers(c, final) => if c < |t.calls| { WriteTally(t, c, final, lost); }
  }

  lemma StepTally(t: Seam, op: Op, lost: multiset<SessionId>)
    requires Tallied(t, lost) && TrackedOk(t) && !op.Arrives? && !op.ConnectionLost?
    ensures Tallied(Step(t, op), lost)
  {
    if op.Retries? {
      RetryTally(t, op.id, op.token, op.named, op.responses, lost);
    } else if op.EmitsAttempt? || op.EmitsOutcome? || op.RoundTimer? || op.HandlerAnswers? {
      HandlerTally(t, op, lost);
    } else if op.Cancels? {
      if op.call < |t.calls| {
        CancelTally(t, op.id, op.call, lost);
      }
    } else {
      AsideTally(t, Step(t, op), lost);
    }
  }

  lemma {:induction false} RunTally(ops: seq<Op>)
    ensures Tallied(Run(EMPTY, ops), Displaced(ops))
  {
    if ops != [] {
      var front, last := ops[..|ops| - 1], ops[|ops| - 1];
      RunTally(front);
      RunKeeps(front);
      match last
      case Arrives(id, modern, session) => TakeCallTally(Run(EMPTY, front), id, modern, session, Displaced(front));
      case ConnectionLost => LoseClearsTally(Run(EMPTY, front));
      case _ => StepTally(Run(EMPTY, front), last, Displaced(front));
    }
  }

  /**
   * Whatever ids are used: a session counts the requests being served that carry it and those of it displaced since the
   * connection was last lost; it is kept idle exactly when that is none, and idle sessions stay within their bound.
   */
  lemma LiveCounts(ops: seq<Op>, s: SessionId)
    ensures var t := Run(EMPTY, ops);
            && (s in t.sessions ==> t.sessions[s].live == |Carrying(t, s)| + Displaced(ops)[s])
            && (s !in t.sessions ==> Carrying(t, s) == {} && Displaced(ops)[s] == 0)
            && (s in t.idle <==> s in t.sessions && Carrying(t, s) == {} && Displaced(ops)[s] == 0)
            && |t.idle| <= MAX_IDLE_SESSIONS
  {
    RunTally(ops);
  }

  /** One arrival: where the counts were right they are, unless it takes the place of a request that carries a session. */
  lemma TakingCounts(t: Seam, id: RequestId, modern: bool, session: Option<SessionId>)
    requires Counted(t, multiset{})
    ensures Counted(TakeCall(t, id, modern, session), multiset{}) <==> Displacing(t, id).None?
  {
    var t' := TakeCall(t, id, modern, session);
    assert OneMore(t, t', id, session);
    NewRequestCounts(t, t', id, session, multiset{});
    if Displacing(t, id).Some? {
      var s := Displacing(t, id).value;
      assert t'.sessions[s].live == |Carrying(t', s)| + (multiset{} + OneOf(Displacing(t, id)))[s];
    } else {
      assert multiset{} + OneOf(Displacing(t, id)) == multiset{};
    }
  }

  ghost predicate CountedAt(ops: seq<Op>, n: nat)
    requires n <= |ops|
  {
    Counted(Run(EMPTY, ops[..n]), multiset{})
  }

  ghost predicate DisplacesAt(ops: seq<Op>, i: nat)
    requires i < |ops|
  {
    Displaces(Run(EMPTY, ops[..i]), ops[i])
  }

  lemma OneDisplaced(ops: seq<Op>, i: nat)
    requires i < |ops|
    ensures Displaced(ops[..i + 1]) ==
              if ops[i].Arrives? then Displaced(ops[..i]) + OneOf(Displacing(Run(EMPTY, ops[..i]), ops[i].id))
              else if ops[i].ConnectionLost? then multiset{} else Displaced(ops[..i])
  {
    assert ops[..i + 1][..i] == ops[..i];
  }

  lemma {:induction false} NoneDisplaced(ops: seq<Op>, n: nat)
    requires n <= |ops| && forall i :: 0 <= i < |ops| ==> !DisplacesAt(ops, i)
    ensures Displaced(ops[..n]) == multiset{}
  {
    if n > 0 {
      NoneDisplaced(ops, n - 1);
      OneDisplaced(ops, n - 1);
      assert !DisplacesAt(ops, n - 1);
    }
  }

  /** An arrival that displaces a request leaves a count wrong, if it was right before. */
  lemma DisplacingMiscounts(ops: seq<Op>, i: nat)
    requires i < |ops| && DisplacesAt(ops, i) && CountedAt(ops, i)
    ensures !CountedAt(ops, i + 1)
  {
    assert ops[..i + 1][..i] == ops[..i];
    TakingCounts(Run(EMPTY, ops[..i]), ops[i].id, ops[i].modern, ops[i].session);
  }

  /**
   * Over a whole run: at every moment each session counts exactly the requests being served that carry it, if and only if
   * no request arrives under the id of one still being served that carries a session.
   */
  lemma CountsAreRightThroughout(ops: seq<Op>)
    ensures (forall n: nat :: n <= |ops| ==> CountedAt(ops, n)) <==> (forall i: nat :: i < |ops| ==> !DisplacesAt(ops, i))
  {
    if forall n: nat :: n <= |ops| ==> CountedAt(ops, n) {
      forall i: nat | i < |ops|
        ensures !DisplacesAt(ops, i)
      {
        assert CountedAt(ops, i) && CountedAt(ops, i + 1);
        if DisplacesAt(ops, i) {
          DisplacingMiscounts(ops, i);
        }
      }
    }
    if forall i: nat :: i < |ops| ==> !DisplacesAt(ops, i) {
      forall n: nat | n <= |ops|
        ensures CountedAt(ops, n)
      {
        NoneDisplaced(ops, n);
        RunTally(ops[..n]);
      }
    }
  }

  lemma {:induction false} DisplacedStays(ops: seq<Op>, m: nat, n: nat)
    requires m <= n <= |ops| && forall i :: m <= i < n ==> !ops[i].ConnectionLost?
    ensures Displaced(ops[..m]) <= Displaced(ops[..n])
    decreases n - m
  {
    if m < n {
      DisplacedStays(ops, m, n - 1);
      OneDisplaced(ops, n - 1);
    }
  }

  /** A session one of whose requests was displaced is neither idle nor dropped until the connection is lost. */
  lemma DisplacedIsNeverIdle(ops: seq<Op>, m: nat, n: nat, s: SessionId)
    requires m < n <= |ops| && DisplacesAt(ops, m) && Displacing(Run(EMPTY, ops[..m]), ops[m].id) == Some(s)
    requires forall i :: m < i < n ==> !ops[i].ConnectionLost?
    ensures var t := Run(EMPTY, ops[..n]); s in t.sessions && s !in t.idle && t.sessions[s].live > |Carrying(t, s)|
  {
    OneDisplaced(ops, m);
    DisplacedStays(ops, m + 1, n);
    assert s in Displaced(ops[..m + 1]);
    LiveCounts(ops[..n], s);
  }

  // ---------------------------------------------------------------------------------------------------
  // One numbering for as long as a session is kept.

  /** A session there before and after a step has the numbering it had. */
  ghost predicate SameNumberings(t: Seam, t': Seam) {
    forall s :: s in t.sessions && s in t'.sessions ==> t'.sessions[s].numbering == t.sessions[s].numbering
  }

  lemma StepKeepsNumberings(t: Seam, op: Op)
    requires Structured(t)
    ensures SameNumberings(t, Step(t, op))
  {
    if op.HandlerAnswers? {
      if op.call < |t.calls| {
        WriteKeepsNumberings(t, op.call, op.final);
      }
    } else if !op.Arrives? {
      StepIsSteady(t, op);
    }
  }

  lemma WriteKeepsNumberings(t: Seam, c: CallRef, final: Final)
    requires Structured(t) && c < |t.calls|
    ensures SameNumberings(t, WriteFinal(t, c, final))
  {
    var noted := Noted(t, c);
    var id := noted.calls[c].original.id;
    NotedStructured(t, c);
    if id !in noted.cancelledIds && Serves(noted, id) {
      FinishingIsSteady(noted, c, final, t.arrivals);
    }
  }

  /** One step of a run. */
  lemma NumberingsKeptAt(ops: seq<Op>, k: nat)
    requires k < |ops|
    ensures SameNumberings(Run(EMPTY, ops[..k]), Run(EMPTY, ops[..k + 1]))
  {
    assert ops[..k + 1][..k] == ops[..k];
    RunKeeps(ops[..k]);
    StepKeepsNumberings(Run(EMPTY, ops[..k]), ops[k]);
  }

  /** Whatever ids are used: a session keeps its numbering for as long as it is kept. */
  lemma {:induction false} KeptSessionsKeepNumbering(ops: seq<Op>, m: nat, n: nat, s: SessionId)
    requires m <= n <= |ops| && forall k :: m <= k <= n ==> s in Run(EMPTY, ops[..k]).sessions
    ensures Run(EMPTY, ops[..n]).sessions[s].numbering == Run(EMPTY, ops[..m]).sessions[s].numbering
    decreases n - m
  {
    if m < n {
      KeptSessionsKeepNumbering(ops, m, n - 1, s);
      NumberingsKeptAt(ops, n - 1);
    }
  }

  lemma CarriedSessionIsKept(ops: seq<Op>, s: SessionId, id: RequestId)
    requires id in Carrying(Run(EMPTY, ops), s)
    ensures var t := Run(EMPTY, ops);
            && s in t.sessions && s !in t.idle
            && t.calls[t.tracked[id]].numbering == t.sessions[s].numbering
  {
    RunTally(ops);
    var t := Run(EMPTY, ops);
    assert |Carrying(t, s)| > 0;
  }

  /**
   * Whatever ids are used: while a request carries it a session is neither dropped nor idle; and from one moment to
   * another between which it was never dropped, every request that carries it numbers its events from one numbering.
   */
  lemma CarriedSessionsStay(ops: seq<Op>, m: nat, n: nat, s: SessionId, a: RequestId, b: RequestId)
    requires m <= n <= |ops|
    requires forall k :: m <= k <= n ==> s in Run(EMPTY, ops[..k]).sessions
    requires a in Carrying(Run(EMPTY, ops[..m]), s) && b in Carrying(Run(EMPTY, ops[..n]), s)
    ensures var t, t' := Run(EMPTY, ops[..m]), Run(EMPTY, ops[..n]);
            && s !in t.idle && s !in t'.idle
            && t'.calls[t'.tracked[b]].numbering == t.calls[t.tracked[a]].numbering == t'.sessions[s].numbering
  {
    CarriedSessionIsKept(ops[..m], s, a);
    CarriedSessionIsKept(ops[..n], s, b);
    KeptSessionsKeepNumbering(ops, m, n, s);
  }

  /** A run that displaces one: the session counts two requests, and one is being served. */
  lemma ReusedIdIsCountedTwice()
    ensures var t := Run(EMPTY, [Arrives(5, true, Some(9)), Arrives(5, true, Some(9))]);
            9 in t.sessions && t.sessions[9].live == 2 && Carrying(t, 9) == {5}
  {
  }
}
