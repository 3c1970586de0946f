/**
 * The tool's audit transport as an object. Every method is proved to take the state where the function of the same
 * name in module Seams takes it.
 */
module AuditTransports {
  import opened Records
  import opened Ordering
  import opened Seams

  class McpAuditTransport {
    /** Every call ever taken and every attempt ever sent; the maps below name them by place. */
    var calls: seq<Call>
    var pendings: seq<Pending>
    /** Calls in flight by their original id, and the rounds out, by token. */
    var tracked: map<RequestId, CallRef>
    var rounds: map<Token, CallRef>
    var minted: nat
    /** The sessions of the requests in flight, and those no request is serving, least recently idle first. */
    var sessions: map<SessionId, ToolSession>
    var idle: seq<SessionId>
    /** Calls whose handler concluded while a round was out, least recently held first. */
    var concluded: seq<CallRef>
    var cancelledIds: set<RequestId>
    /** The older binding's attempts in flight, by the request id given them here. */
    var wires: map<WireId, PendingRef>
    var nextWire: nat
    var arrivals: nat
    var numberings: nat
    var resumed: seq<Resumption>
    var sent: seq<Frame>

    ghost function State(): Seam
      reads this
    {
      Seam(calls, pendings, tracked, rounds, minted, sessions, idle, concluded, cancelledIds, wires, nextWire, arrivals,
           numberings, resumed, sent)
    }

    constructor ()
      ensures State() == EMPTY
    {
      calls, pendings, tracked, rounds, minted := [], [], map[], map[], 0;
      sessions, idle, concluded, cancelledIds := map[], [], [], {};
      wires, nextWire, arrivals, numberings, resumed, sent := map[], 0, 0, 0, [], [];
    }

    /** The first settlement stands. */
    method Settle(p: PendingRef, answer: Answer, how: How) returns (first: bool)
      requires p < |pendings|
      modifies this`pendings
      ensures first == old(pendings)[p].once.Waiting?
      ensures pendings == if first then old(pendings)[p := old(pendings)[p].(once := Settled(answer, how))] else old(pendings)
    {
      first := pendings[p].once.Waiting?;
      if first {
        pendings := pendings[p := pendings[p].(once := Settled(answer, how))];
      }
    }

    /** Settle every attempt given as unanswered. */
    method Unanswered(refs: set<PendingRef>, how: How)
      modifies this`pendings
      ensures pendings == Unanswer(old(pendings), refs, how)
    {
      var left := refs;
      while left != {}
        invariant left <= refs
        invariant |pendings| == |old(pendings)|
        invariant forall i :: 0 <= i < |pendings| ==>
          pendings[i] == if i in refs && i !in left then Unanswer(old(pendings), refs, how)[i] else old(pendings)[i]
        decreases |left|
      {
        var p :| p in left;
        left := left - {p};
        if p < |pendings| {
          var first := Settle(p, Answer.Unanswered, how);
        }
      }
    }

    method Forget(id: SessionId)
      modifies this`sessions, this`idle
      ensures State() == DropSession(old(State()), id)
    {
      sessions := sessions - {id};
      idle := Dropping(idle, id);
    }

    /** Keep a session no request is serving, evicting the least recently idle beyond the bound. */
    method MakeIdle(id: SessionId)
      modifies this`sessions, this`idle
      ensures State() == KeepIdle(old(State()), id)
    {
      idle := Dropping(idle, id) + [id];
      ghost var goal := EvictIdle(State());
      while |idle| > MAX_IDLE_SESSIONS
        invariant EvictIdle(State()) == goal
        invariant State() == old(State()).(sessions := sessions, idle := idle)
        decreases |idle|
      {
        Forget(idle[0]);
      }
    }

    method Leave(id: SessionId, final: bool)
      modifies this`sessions, this`idle
      ensures State() == LeaveSession(old(State()), id, final)
    {
      if id !in sessions {
        return;
      }
      var session := sessions[id];
      sessions := sessions[id := session.(live := session.live - 1)];
      if session.live - 1 > 0 {
        return;
      }
      if final {
        Forget(id);
      } else {
        MakeIdle(id);
      }
    }

    method Acquire(id: SessionId) returns (numbering: nat)
      modifies this`sessions, this`idle, this`numberings
      ensures (State(), numbering) == AcquireSession(old(State()), id)
    {
      var session := ToolSession(numberings, 0);
      if id in sessions {
        session := sessions[id];
      } else {
        numberings := numberings + 1;
      }
      sessions := sessions[id := session.(live := session.live + 1)];
      idle := Dropping(idle, id);
      numbering := session.numbering;
    }

    /** The requests of the wire that are a call's, and every attempt it still waits for. */
    method StillOpen(c: CallRef) returns (mine: set<WireId>, waiting: set<PendingRef>)
      requires c < |calls|
      ensures mine == WiresOf(State(), c) && waiting == StillWaiting(State(), c)
    {
      var call := calls[c];
      mine := set w | w in wires && wires[w] < |pendings| && pendings[wires[w]].call == c;
      assert mine == WiresOf(State(), c);
      waiting := if call.round.Some? then call.round.value.awaiting.Values else {};
      waiting := waiting + call.nextAwaiting.Values + set w | w in mine :: wires[w];
    }

    /** Take a call off the books, its round and its requests of the wire with it. */
    method Untrack(c: CallRef, mine: set<WireId>)
      requires c < |calls|
      modifies this`calls, this`tracked, this`rounds, this`concluded, this`wires
      ensures var call := old(calls)[c];
              State() == old(State()).(
                tracked := old(tracked) - {call.original.id},
                concluded := DroppingHeld(old(calls), old(concluded), call.original.id),
                calls := old(calls)[c := call.(held := None, round := None, nextAwaiting := map[])],
                rounds := if call.round.Some? then old(rounds) - {call.round.value.token} else old(rounds),
                wires := old(wires) - mine)
    {
      var call := calls[c];
      tracked := tracked - {call.original.id};
      concluded := DroppingHeld(calls, concluded, call.original.id);
      if call.round.Some? {
        rounds := rounds - {call.round.value.token};
      }
      wires := wires - mine;
      calls := calls[c := call.(held := None, round := None, nextAwaiting := map[])];
    }

    /** Close a call's round, and settle what it still waits for as unanswered. */
    method DropCall(c: CallRef)
      requires c < |calls|
      modifies this`calls, this`pendings, this`tracked, this`rounds, this`concluded, this`wires
      ensures State() == Dropped(old(State()), c)
    {
      var mine, waiting := StillOpen(c);
      Unanswered(waiting, ByEnd);
      Untrack(c, mine);
    }

    /** Drop a request's state once it is done. */
    method ReleaseCall(c: CallRef, final: bool)
      requires c < |calls|
      modifies this
      ensures State() == Release(old(State()), c, final)
    {
      var call := calls[c];
      if call.original.id !in tracked || tracked[call.original.id] != c {
        return;
      }
      DropCall(c);
      if call.session.Some? {
        Leave(call.session.value, final);
      }
    }

    method AbandonCall(c: CallRef)
      requires c < |calls|
      modifies this
      ensures State() == Abandon(old(State()), c)
    {
      calls := calls[c := calls[c].(cancelled := true)];
      ReleaseCall(c, true);
    }

    /** End the current round: the buffered events answer the request that is open. */
    method SendRound(c: CallRef)
      requires c < |calls|
      modifies this`calls, this`rounds, this`minted, this`sent
      ensures State() == EndRound(old(State()), c)
    {
      var call := calls[c];
      if call.current.None? || call.buffered == [] {
        return;
      }
      var token := minted;
      minted := minted + 1;
      rounds := rounds[token := c];
      sent := sent + [RoundOut(call.current.value, c, token, call.buffered)];
      calls := calls[c := call.(current := None, buffered := [], nextAwaiting := map[],
                                round := Some(Round(token, call.nextAwaiting)))];
    }

    /** Keep a concluded call for its round's retry, dropping the least recently kept beyond the bound. */
    method Hold(c: CallRef, final: Final)
      requires c < |calls|
      modifies this
      ensures State() == KeepConcluded(old(State()), c, final)
    {
      concluded := DroppingHeld(calls, concluded, calls[c].original.id) + [c];
      calls := calls[c := calls[c].(held := Some(final))];
      ghost var goal := EvictConcluded(State(), 0);
      var i := 0;
      while |concluded| > MAX_IDLE_SESSIONS && i < |concluded| && concluded[i] < |calls|
        invariant EvictConcluded(State(), i) == goal
        decreases |concluded| - i
      {
        var kept := |concluded|;
        AbandonCall(concluded[i]);
        if |concluded| == kept {
          i := i + 1;
        } else if |concluded| > kept {
          return;
        }
      }
    }

    /** Answer the open id with the call's final frame and release the call. */
    method Conclude(c: CallRef, final: Final)
      requires c < |calls|
      modifies this
      ensures State() == ConcludeCall(old(State()), c, final)
    {
      var call := calls[c];
      var outcomes := call.buffered;
      if final.kind.Failure? && outcomes != [] {
        SendRound(c);
        Hold(c, final);
        return;
      }
      calls := calls[c := call.(buffered := [])];
      if call.current.Some? {
        sent := sent + [FinalOut(call.current.value, c, final, outcomes)];
      }
      ReleaseCall(c, !final.kind.Asks?);
    }

    /** A final result carries no attempt: one still unsent was abandoned by the handler. */
    method MarkFinished(c: CallRef)
      requires c < |calls|
      modifies this`calls, this`pendings
      ensures State() == Marked(old(State()), c)
    {
      var call := calls[c];
      var outcomes := WithoutAttempts(call.buffered);
      Unanswered(call.nextAwaiting.Values, ByEnd);
      calls := calls[c := call.(finished := true, buffered := outcomes, nextAwaiting := map[],
                                cut := if |call.buffered| <= |call.emitted| then |call.emitted| - |call.buffered|
                                       else |call.emitted|)];
    }

    /** Deliver the call's remaining outcomes no later than its result. */
    method Finish(c: CallRef, final: Final)
      requires c < |calls|
      modifies this
      ensures State() == FinishCall(old(State()), c, final)
    {
      MarkFinished(c);
      if calls[c].round.Some? {
        Hold(c, final);
      } else {
        Conclude(c, final);
      }
    }

    method FinishOlder(c: CallRef, final: Final)
      requires c < |calls|
      modifies this
      ensures State() == FinishLegacy(old(State()), c, final)
    {
      var call := calls[c];
      calls := calls[c := call.(finished := true)];
      sent := sent + [FinalOut(call.original, c, final, [])];
      ReleaseCall(c, !final.kind.Asks?);
    }

    /** What the session writes: it names its request's id, so it goes to whatever call has that id now. */
    method Write(c: CallRef, final: Final)
      requires c < |calls|
      modifies this
      ensures State() == WriteFinal(old(State()), c, final)
    {
      if calls[c].written {
        return;
      }
      calls := calls[c := calls[c].(written := true)];
      var id := calls[c].original.id;
      if id in cancelledIds {
        cancelledIds := cancelledIds - {id};
        return;
      }
      if id in tracked && tracked[id] < |calls| && !calls[tracked[id]].finished {
        if calls[tracked[id]].modern {
          Finish(tracked[id], final);
        } else {
          FinishOlder(tracked[id], final);
        }
        return;
      }
      sent := sent + [PassedThrough(calls[c].original, c, final)];
    }

    /** The session and numbering a new call gets. */
    method Join(session: Option<SessionId>) returns (numbering: nat)
      modifies this`sessions, this`idle, this`numberings
      ensures (State(), numbering) ==
                if session.Some? then AcquireSession(old(State()), session.value)
                else (old(State()).(numberings := old(numberings) + 1), old(numberings))
    {
      if session.Some? {
        numbering := Acquire(session.value);
      } else {
        numbering := numberings;
        numberings := numberings + 1;
      }
    }

    /** A new call is tracked. */
    method Take(id: RequestId, modern: bool, session: Option<SessionId>)
      modifies this
      ensures State() == TakeCall(old(State()), id, modern, session)
    {
      var numbering := Join(session);
      var request := Request(id, arrivals);
      arrivals := arrivals + 1;
      cancelledIds := cancelledIds - {id};
      tracked := tracked[id := |calls|];
      calls := calls + [NewCall(request, modern, session, numbering)];
    }

    /** Settle the attempts of a round with the answers its retry brought, one by one. */
    method SettleAwaited(round: Round, responses: map<Id, Answer>) returns (accepted: set<Id>)
      modifies this`pendings
      ensures pendings == SettleRound(old(pendings), round, responses)
      ensures accepted == NowAccepted(old(pendings), round, responses)
    {
      accepted := {};
      var i := 0;
      while i < |pendings|
        invariant 0 <= i <= |pendings| == |old(pendings)|
        invariant forall k :: 0 <= k < |pendings| ==>
          pendings[k] == if k < i then SettleRound(old(pendings), round, responses)[k] else old(pendings)[k]
        invariant forall id :: id in accepted <==>
          exists k :: 0 <= k < i && Awaited(old(pendings), round.awaiting, k)
                      && AnswerIn(responses, old(pendings)[k].id).Accepted? && old(pendings)[k].id == id
      {
        var pending := pendings[i];
        if pending.id in round.awaiting && round.awaiting[pending.id] == i {
          var answer := AnswerIn(responses, pending.id);
          var first := Settle(i, answer, ByRetry(round.token));
          if first && answer.Accepted? {
            accepted := accepted + {pending.id};
          }
        }
        i := i + 1;
      }
    }

    /** The round closes with the answers the retry brought. */
    method CloseWith(c: CallRef, request: Request, named: Option<SessionId>, responses: map<Id, Answer>)
      requires c < |calls| && calls[c].round.Some?
      modifies this
      ensures State() == Resume(old(State()), c, request, named, responses)
    {
      var call := calls[c];
      var round := call.round.value;
      rounds := rounds - {round.token};
      var inSession := named.Some? && named == call.session;
      resumed := resumed + [Resumption(round.token, c, request, inSession)];
      var accepted := SettleAwaited(round, if inSession then responses else map[]);
      calls := calls[c := call.(round := None, current := Some(request), ids := call.ids + {request.id},
                                accepted := call.accepted + accepted)];
    }

    /** Take a retry's answers, and answer it with the final frame if one was held. */
    method Accept(c: CallRef, request: Request, named: Option<SessionId>, responses: map<Id, Answer>)
      requires c < |calls| && calls[c].round.Some?
      modifies this
      ensures State() == AcceptRetry(old(State()), c, request, named, responses)
    {
      CloseWith(c, request, named, responses);
      var call := calls[c];
      if call.held.Some? {
        SameIds(calls, old(calls), concluded, call.original.id);
        concluded := DroppingHeld(calls, concluded, call.original.id);
        calls := calls[c := call.(held := None)];
        Conclude(c, call.held.value);
      } else if !call.finished && CarriesAttempt(call.buffered) {
        calls := calls[c := call.(scheduled := true)];
      }
    }

    /** A token that names no open round is a replay the tool must not act on. */
    method Try(request: Request, token: Token, named: Option<SessionId>, responses: map<Id, Answer>)
      modifies this
      ensures State() == TryToken(old(State()), request, token, named, responses)
    {
      var out := token in rounds && rounds[token] < |calls| && calls[rounds[token]].round.Some?
                 && calls[rounds[token]].round.value.token == token;
      assert out == Resumes(State(), token);
      if out {
        Accept(rounds[token], request, named, responses);
      } else {
        rounds := rounds - {token};
        sent := sent + [NoOpenRound(request)];
      }
    }

    method Retry(id: RequestId, token: Token, named: Option<SessionId>, responses: map<Id, Answer>)
      modifies this
      ensures State() == TakeRetry(old(State()), id, token, named, responses)
    {
      var request := Request(id, arrivals);
      arrivals := arrivals + 1;
      Try(request, token, named, responses);
    }

    method SendAttempt(c: CallRef, event: Event)
      requires c < |calls|
      modifies this
      ensures State() == EmitAttempt(old(State()), c, event)
    {
      var call := calls[c];
      if call.finished || call.cancelled {
        return;
      }
      var p := |pendings|;
      pendings := pendings + [Pending(event.id, c, Waiting)];
      if call.modern {
        calls := calls[c := call.(buffered := call.buffered + [event], emitted := call.emitted + [event], scheduled := true,
                                  nextAwaiting := call.nextAwaiting[event.id := p])];
      } else {
        wires := wires[nextWire := p];
        sent := sent + [AttemptOut(nextWire, c, event)];
        nextWire := nextWire + 1;
      }
    }

    method SendOutcome(c: CallRef, event: Event)
      requires c < |calls|
      modifies this
      ensures State() == EmitOutcome(old(State()), c, event)
    {
      var call := calls[c];
      if call.cancelled || call.finished {
        return;
      }
      if call.modern {
        calls := calls[c := call.(buffered := call.buffered + [event], emitted := call.emitted + [event],
                                  accepted := call.accepted - {event.id})];
      } else {
        sent := sent + [OutcomeOut(c, event)];
      }
    }

    method FireRoundTimer(c: CallRef)
      requires c < |calls|
      modifies this
      ensures State() == TimeRound(old(State()), c)
    {
      var call := calls[c];
      if !call.scheduled {
        return;
      }
      calls := calls[c := call.(scheduled := false)];
      if !call.finished && !call.cancelled {
        SendRound(c);
      }
    }

    method CancelRequest(id: RequestId, c: CallRef)
      requires c < |calls|
      modifies this
      ensures State() == Cancel(old(State()), id, c)
    {
      var call := calls[c];
      var original := call.original.id;
      if original !in tracked || tracked[original] != c || id !in call.ids {
        return;
      }
      AbandonCall(c);
      if !call.finished {
        cancelledIds := cancelledIds + {original};
      }
    }

    method TakeAnswer(wire: WireId, answer: Answer)
      modifies this`wires, this`pendings
      ensures State() == PeerAnswer(old(State()), wire, answer)
    {
      if wire !in wires {
        return;
      }
      var p := wires[wire];
      wires := wires - {wire};
      if p < |pendings| {
        var first := Settle(p, answer, ByPeer(wire));
      }
    }

    method AbandonEach(ids: seq<RequestId>)
      modifies this
      ensures State() == AbandonAll(old(State()), ids)
    {
      for i := 0 to |ids|
        invariant State() == AbandonAll(old(State()), ids[..i])
      {
        assert ids[..i + 1][..i] == ids[..i];
        if ids[i] in tracked && tracked[ids[i]] < |calls| {
          AbandonCall(tracked[ids[i]]);
        }
      }
      assert ids[..|ids|] == ids;
    }

    /** The connection is gone: everyone in flight is abandoned, and nothing is kept. */
    method OnConnectionLost()
      modifies this
      ensures State() == Lose(old(State()))
    {
      AbandonEach(Listed(tracked.Keys));
      Unanswered(wires.Values, ByEnd);
      wires, sessions, idle, cancelledIds := map[], map[], [], {};
    }
  }

  method WithoutAttempts(events: seq<Event>) returns (outcomes: seq<Event>)
    ensures outcomes == Outcomes(events)
  {
    outcomes := [];
    for i := 0 to |events|
      invariant outcomes == Outcomes(events[..i])
    {
      assert events[..i + 1][..i] == events[..i];
      if !events[i].outcome.Attempted? {
        outcomes := outcomes + [events[i]];
      }
    }
    assert events[..|events|] == events;
  }

  /** Only the ids of the calls matter to which of them is dropped. */
  lemma {:induction false} SameIds(calls: seq<Call>, others: seq<Call>, concluded: seq<CallRef>, id: RequestId)
    requires |calls| == |others| && forall k :: 0 <= k < |calls| ==> calls[k].original == others[k].original
    ensures DroppingHeld(calls, concluded, id) == DroppingHeld(others, concluded, id)
  {
    if concluded != [] {
      SameIds(calls, others, concluded[..|concluded| - 1], id);
    }
  }
}
