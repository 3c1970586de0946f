/** Every step of the tool's side keeps its invariant, so every run does. */
module SeamSteps {
  import opened Records
  import opened Ordering
  import opened Seams
  import opened SeamInvariants

  // ---------------------------------------------------------------------------------------------------
  // One frame more.

  lemma SentOne(sent: seq<Frame>, f: Frame, c: CallRef)
    ensures Delivered(sent + [f], c) == Delivered(sent, c) + if About(f) == Some(c) then EventsIn(f) else []
  {
  }

  lemma FinalWith(sent: seq<Frame>, f: Frame, c: CallRef)
    ensures FinalSent(sent + [f], c) <==> FinalSent(sent, c) || (f.FinalOut? && f.call == c)
  {
    var all := sent + [f];
    assert all[|sent|] == f && forall i :: 0 <= i < |sent| ==> all[i] == sent[i];
    if FinalSent(sent, c) {
      var i :| 0 <= i < |sent| && sent[i].FinalOut? && sent[i].call == c;
      assert all[i] == sent[i];
    }
  }

  lemma RepliedWith(sent: seq<Frame>, f: Frame, arrival: nat)
    ensures Replied(sent + [f], arrival) <==>
              Replied(sent, arrival) || (Replies(f).Some? && Replies(f).value.arrival == arrival)
  {
    var all := sent + [f];
    assert all[|sent|] == f && forall i :: 0 <= i < |sent| ==> all[i] == sent[i];
    if Replied(sent, arrival) {
      var i :| 0 <= i < |sent| && Replies(sent[i]).Some? && Replies(sent[i]).value.arrival == arrival;
      assert all[i] == sent[i];
    }
  }

  /** A frame that answers nothing, or a request not answered yet. */
  lemma SentStaysOk(sent: seq<Frame>, f: Frame, arrivals: nat, calls: nat)
    requires SentOk(sent, arrivals, calls) && (About(f).Some? ==> About(f).value < calls)
    requires Replies(f).Some? ==> Replies(f).value.arrival < arrivals && !Replied(sent, Replies(f).value.arrival)
    ensures SentOk(sent + [f], arrivals, calls)
  {
  }

  lemma ResumedStaysOk(t: Seam, t': Seam, f: Frame)
    requires ResumedOk(t) && t'.resumed == t.resumed && t'.sent == t.sent + [f] && t.minted <= t'.minted
    requires f.RoundOut? ==> t.minted <= f.token < t'.minted
    requires forall token :: token in t'.rounds ==> token in t.rounds || t.minted <= token
    ensures ResumedOk(t')
  {
    assert t'.sent[|t.sent|] == f && forall i :: 0 <= i < |t.sent| ==> t'.sent[i] == t.sent[i];
    forall k | 0 <= k < |t'.resumed|
      ensures Minted(t'.sent, t'.resumed[k].call, t'.resumed[k].token)
    {
      CarriedStays(t.sent, t'.sent, t'.resumed[k].call, t'.resumed[k].token, 0);
    }
  }

  lemma ResumedSameOk(t: Seam, t': Seam)
    requires ResumedOk(t) && t'.resumed == t.resumed && t'.sent == t.sent && t'.minted == t.minted
    requires forall token :: token in t'.rounds ==> token in t.rounds
    ensures ResumedOk(t')
  {
  }

  // ---------------------------------------------------------------------------------------------------
  // A change the invariant does not look at.

  ghost predicate SameButUnseen(call: Call, call': Call) {
    call' == call.(ids := call'.ids, written := call'.written, scheduled := call'.scheduled,
                   cancelled := call'.cancelled, held := call'.held,
                   accepted := call'.accepted)
  }

  lemma UnseenCallOk(t: Seam, t': Seam, c: CallRef, call': Call)
    requires c < |t.calls| && CallOk(t, c) && SameButUnseen(t.calls[c], call') && t' == t.(calls := t.calls[c := call'])
    ensures CallOk(t', c)
  {
    RoundStaysOk(t, t', call', c);
  }

  lemma UnseenKeeps(t: Seam, c: CallRef, call': Call)
    requires Good(t) && c < |t.calls| && SameButUnseen(t.calls[c], call')
    ensures Good(t.(calls := t.calls[c := call']))
  {
    var t' := t.(calls := t.calls[c := call']);
    assert CallOk(t, c);
    UnseenCallOk(t, t', c, call');
    OthersStayOk(t, t', c);
    PendingsStayOk(t, t');
  }

  // ---------------------------------------------------------------------------------------------------
  // The end of a request.

  /** Sessions are only ever dropped: those that stay keep their numbering. */
  ghost predicate KeepsNumbering(s: map<SessionId, ToolSession>, s': map<SessionId, ToolSession>) {
    forall x :: x in s' ==> x in s && s'[x].numbering == s[x].numbering
  }

  lemma {:induction false} EvictIdleIsQuiet(t: Seam)
    ensures SameCore(t, EvictIdle(t)) && KeepsNumbering(t.sessions, EvictIdle(t).sessions) && EvictIdle(t).wires == t.wires
    decreases |t.idle|
  {
    if |t.idle| > MAX_IDLE_SESSIONS {
      EvictIdleIsQuiet(DropSession(t, t.idle[0]));
    }
  }

  lemma LeavingIsQuiet(t: Seam, id: SessionId, final: bool)
    ensures SameCore(t, LeaveSession(t, id, final)) && LeaveSession(t, id, final).wires == t.wires
    ensures KeepsNumbering(t.sessions, LeaveSession(t, id, final).sessions)
  {
    if id in t.sessions {
      LeftIsQuiet(t, t.sessions[id := t.sessions[id].(live := t.sessions[id].live - 1)], id);
    }
  }

  lemma LeftIsQuiet(t: Seam, sessions: map<SessionId, ToolSession>, id: SessionId)
    requires KeepsNumbering(t.sessions, sessions)
    ensures var left := t.(sessions := sessions);
            && SameCore(t, DropSession(left, id)) && SameCore(t, KeepIdle(left, id))
            && KeepsNumbering(t.sessions, DropSession(left, id).sessions) && KeepsNumbering(t.sessions, KeepIdle(left, id).sessions)
            && DropSession(left, id).wires == t.wires && KeepIdle(left, id).wires == t.wires
  {
    var left := t.(sessions := sessions);
    EvictIdleIsQuiet(left.(idle := Dropping(left.idle, id) + [id]));
  }

  lemma DroppedTouches(t: Seam, c: CallRef)
    requires c < |t.calls| && Tracks(t, c) && CallOk(t, c) && RoundsOk(t)
    ensures Touches(t, Dropped(t, c), c)
  {
  }

  lemma DroppedIsOk(t: Seam, c: CallRef)
    requires c < |t.calls| && Tracks(t, c) && CallOk(t, c)
    ensures CallOk(Dropped(t, c), c)
  {
  }

  lemma DroppedKeeps(t: Seam, c: CallRef)
    requires Good(t) && c < |t.calls| && Tracks(t, c)
    ensures Good(Dropped(t, c))
  {
    var t' := Dropped(t, c);
    assert CallOk(t, c);
    DroppedTouches(t, c);
    DroppedIsOk(t, c);
    OthersStayOk(t, t', c);
    UnanswerIsQuiet(t.pendings, StillWaiting(t, c), ByEnd);
    PendingsStayOk(t, t');
    ResumedSameOk(t, t');
    DroppedRounds(t, c);
  }

  lemma DroppedRounds(t: Seam, c: CallRef)
    requires RoundsOk(t) && c < |t.calls| && CallOk(t, c)
    ensures RoundsOk(Dropped(t, c))
  {
  }

  lemma ReleaseKeeps(t: Seam, c: CallRef, final: bool)
    requires Good(t) && c < |t.calls|
    ensures Good(Release(t, c, final))
  {
    if Tracks(t, c) {
      DroppedKeeps(t, c);
      var session := t.calls[c].session;
      if session.Some? {
        LeavingIsQuiet(Dropped(t, c), session.value, final);
        SameCoreKeeps(Dropped(t, c), LeaveSession(Dropped(t, c), session.value, final));
      }
    }
  }

  lemma AbandonKeeps(t: Seam, c: CallRef)
    requires Good(t) && c < |t.calls|
    ensures Good(Abandon(t, c))
  {
    UnseenKeeps(t, c, t.calls[c].(cancelled := true));
    ReleaseKeeps(t.(calls := t.calls[c := t.calls[c].(cancelled := true)]), c, true);
  }

  lemma {:induction false} EvictConcludedKeeps(t: Seam, i: nat)
    requires Good(t)
    ensures Good(EvictConcluded(t, i))
    decreases |t.concluded| - i
  {
    if |t.concluded| > MAX_IDLE_SESSIONS && i < |t.concluded| && t.concluded[i] < |t.calls| {
      var t' := Abandon(t, t.concluded[i]);
      AbandonKeeps(t, t.concluded[i]);
      if |t'.concluded| < |t.concluded| {
        EvictConcludedKeeps(t', i);
      } else if |t'.concluded| == |t.concluded| {
        EvictConcludedKeeps(t', i + 1);
      }
    }
  }

  lemma KeepConcludedKeeps(t: Seam, c: CallRef, final: Final)
    requires Good(t) && c < |t.calls|
    ensures Good(KeepConcluded(t, c, final))
  {
    var call := t.calls[c];
    UnseenKeeps(t, c, call.(held := Some(final)));
    var held := t.(calls := t.calls[c := call.(held := Some(final))]);
    var kept := held.(concluded := DroppingHeld(t.calls, t.concluded, call.original.id) + [c]);
    SameCoreKeeps(held, kept);
    EvictConcludedKeeps(kept, 0);
  }

  // ---------------------------------------------------------------------------------------------------
  // Rounds.

  lemma RoundOutIsOk(t: Seam, c: CallRef)
    requires c < |t.calls| && CallOk(t, c) && t.calls[c].current.Some? && t.calls[c].buffered != []
    requires !FinalSent(t.sent, c)
    ensures CallOk(EndRound(t, c), c) && !FinalSent(EndRound(t, c).sent, c)
  {
    var call, t' := t.calls[c], EndRound(t, c);
    var f := RoundOut(call.current.value, c, t.minted, call.buffered);
    SentOne(t.sent, f, c);
    FinalWith(t.sent, f, c);
    assert t'.sent[|t.sent|] == f;
    assert Minted(t'.sent, c, t.minted);
    forall id | id in call.nextAwaiting
      ensures Carried(t'.sent, c, t.minted, id)
    {
      assert IdIn(call.buffered, id);
      assert t'.sent[|t.sent|].RoundOut? && t'.sent[|t.sent|].call == c && t'.sent[|t.sent|].token == t.minted
             && IdIn(t'.sent[|t.sent|].events, id);
    }
  }

  lemma TokensAreOld(t: Seam, token: Token)
    requires AllOk(t) && RoundsOk(t) && token in t.rounds
    ensures token < t.minted
  {
    assert CallOk(t, t.rounds[token]);
  }

  lemma RoundOutTouches(t: Seam, c: CallRef)
    requires c < |t.calls| && AllOk(t) && RoundsOk(t) && t.calls[c].current.Some? && t.calls[c].buffered != []
    ensures Touches(t, EndRound(t, c), c)
  {
    if t.minted in t.rounds {
      TokensAreOld(t, t.minted);
    }
  }

  lemma RoundOutRounds(t: Seam, c: CallRef)
    requires c < |t.calls| && CallOk(t, c) && RoundsOk(t) && t.calls[c].current.Some? && t.calls[c].buffered != []
    ensures RoundsOk(EndRound(t, c))
  {
  }

  lemma EndRoundKeeps(t: Seam, c: CallRef)
    requires Good(t) && c < |t.calls| && !FinalSent(t.sent, c)
    ensures Good(EndRound(t, c)) && !FinalSent(EndRound(t, c).sent, c)
  {
    var call, t' := t.calls[c], EndRound(t, c);
    if call.current.Some? && call.buffered != [] {
      assert CallOk(t, c);
      RoundOutIsOk(t, c);
      RoundOutTouches(t, c);
      RoundOutRounds(t, c);
      OthersStayOk(t, t', c);
      PendingsStayOk(t, t');
      var f := RoundOut(call.current.value, c, t.minted, call.buffered);
      SentStaysOk(t.sent, f, t.arrivals, |t.calls|);
      ResumedStaysOk(t, t', f);
    }
  }

  /** The final frame sent, before the call is released. */
  ghost function FinalGone(t: Seam, c: CallRef, final: Final): Seam
    requires c < |t.calls| && t.calls[c].current.Some?
  {
    var call := t.calls[c];
    t.(calls := t.calls[c := call.(buffered := [])],
       sent := t.sent + [FinalOut(call.current.value, c, final, call.buffered)])
  }

  lemma FinalGoneIsOk(t: Seam, c: CallRef, final: Final)
    requires c < |t.calls| && CallOk(t, c) && t.calls[c].current.Some? && t.calls[c].finished
    ensures CallOk(FinalGone(t, c, final), c)
  {
  }

  lemma FinalGoneKeeps(t: Seam, c: CallRef, final: Final)
    requires Good(t) && c < |t.calls| && t.calls[c].current.Some? && t.calls[c].finished && !FinalSent(t.sent, c)
    ensures Good(FinalGone(t, c, final))
  {
    var call, t' := t.calls[c], FinalGone(t, c, final);
    var f := FinalOut(call.current.value, c, final, call.buffered);
    assert CallOk(t, c);
    FinalGoneIsOk(t, c, final);
    OthersStayOk(t, t', c);
    PendingsStayOk(t, t');
    SentStaysOk(t.sent, f, t.arrivals, |t.calls|);
    ResumedStaysOk(t, t', f);
  }

  lemma ConcludeKeeps(t: Seam, c: CallRef, final: Final)
    requires Good(t) && c < |t.calls| && t.calls[c].current.Some? && t.calls[c].finished && !FinalSent(t.sent, c)
    ensures Good(ConcludeCall(t, c, final))
  {
    if final.kind.Failure? && t.calls[c].buffered != [] {
      EndRoundKeeps(t, c);
      KeepConcludedKeeps(EndRound(t, c), c, final);
    } else {
      FinalGoneKeeps(t, c, final);
      ReleaseKeeps(FinalGone(t, c, final), c, !final.kind.Asks?);
    }
  }

  lemma MarkedIsOk(t: Seam, c: CallRef)
    requires c < |t.calls| && CallOk(t, c) && !t.calls[c].finished
    ensures CallOk(Marked(t, c), c)
  {
  }

  lemma MarkedKeeps(t: Seam, c: CallRef)
    requires Good(t) && c < |t.calls| && !t.calls[c].finished
    ensures Good(Marked(t, c)) && !FinalSent(t.sent, c)
  {
    var t' := Marked(t, c);
    assert CallOk(t, c);
    MarkedIsOk(t, c);
    UnanswerIsQuiet(t.pendings, t.calls[c].nextAwaiting.Values, ByEnd);
    OthersStayOk(t, t', c);
    PendingsStayOk(t, t');
  }

  lemma FinishKeeps(t: Seam, c: CallRef, final: Final)
    requires Good(t) && c < |t.calls| && !t.calls[c].finished && Tracks(t, c)
    ensures Good(FinishCall(t, c, final))
  {
    MarkedKeeps(t, c);
    assert CallOk(t, c);
    if t.calls[c].round.Some? {
      KeepConcludedKeeps(Marked(t, c), c, final);
    } else {
      ConcludeKeeps(Marked(t, c), c, final);
    }
  }

  ghost function LegacyGone(t: Seam, c: CallRef, final: Final): Seam
    requires c < |t.calls|
  {
    t.(calls := t.calls[c := t.calls[c].(finished := true)],
       sent := t.sent + [FinalOut(t.calls[c].original, c, final, [])])
  }

  lemma LegacyGoneIsOk(t: Seam, c: CallRef, final: Final)
    requires c < |t.calls| && CallOk(t, c) && !t.calls[c].finished && !t.calls[c].modern
    ensures CallOk(LegacyGone(t, c, final), c) && !FinalSent(t.sent, c)
  {
  }

  lemma FinishLegacyKeeps(t: Seam, c: CallRef, final: Final)
    requires Good(t) && c < |t.calls| && !t.calls[c].finished && !t.calls[c].modern
    ensures Good(FinishLegacy(t, c, final))
  {
    var t' := LegacyGone(t, c, final);
    var f := FinalOut(t.calls[c].original, c, final, []);
    assert CallOk(t, c);
    LegacyGoneIsOk(t, c, final);
    OthersStayOk(t, t', c);
    PendingsStayOk(t, t');
    SentStaysOk(t.sent, f, t.arrivals, |t.calls|);
    ResumedStaysOk(t, t', f);
    ReleaseKeeps(t', c, !final.kind.Asks?);
  }
}
