/** What every step of the tool's side keeps: what a call has sent, holds and has emitted always balance. */
module SeamInvariants {
  import opened Records
  import opened Ordering
  import opened Seams

  // ---------------------------------------------------------------------------------------------------
  // Frames.

  function About(f: Frame): Option<CallRef> {
    match f
    case RoundOut(_, c, _, _) => Some(c)
    case FinalOut(_, c, _, _) => Some(c)
    case AttemptOut(_, c, _) => Some(c)
    case OutcomeOut(c, _) => Some(c)
    case _ => None
  }

  /** The request a frame of the transport's own answers. */
  function Replies(f: Frame): Option<Request> {
    match f
    case RoundOut(request, _, _, _) => Some(request)
    case FinalOut(request, _, _, _) => Some(request)
    case NoOpenRound(request) => Some(request)
    case _ => None
  }

  function EventsIn(f: Frame): seq<Event> {
    match f
    case RoundOut(_, _, _, events) => events
    case FinalOut(_, _, _, events) => events
    case _ => []
  }

  /** Every event the frames of a call carried, in sending order. */
  function Delivered(sent: seq<Frame>, c: CallRef): seq<Event> {
    if sent == [] then [] else
      var front, last := Delivered(sent[..|sent| - 1], c), sent[|sent| - 1];
      if About(last) == Some(c) then front + EventsIn(last) else front
  }

  ghost predicate FinalSent(sent: seq<Frame>, c: CallRef) {
    exists i :: 0 <= i < |sent| && sent[i].FinalOut? && sent[i].call == c
  }

  ghost predicate Replied(sent: seq<Frame>, arrival: nat) {
    exists i :: 0 <= i < |sent| && Replies(sent[i]).Some? && Replies(sent[i]).value.arrival == arrival
  }

  /** No request is answered twice. */
  ghost predicate RepliedOnce(sent: seq<Frame>) {
    forall i, j :: 0 <= i < j < |sent| && Replies(sent[i]).Some? && Replies(sent[j]).Some? ==>
      Replies(sent[i]).value.arrival != Replies(sent[j]).value.arrival
  }

  ghost predicate IdIn(events: seq<Event>, id: Id) {
    exists i :: 0 <= i < |events| && events[i].id == id
  }

  /** A round of the call went out under the token. */
  ghost predicate Minted(sent: seq<Frame>, c: CallRef, token: Token) {
    exists i :: 0 <= i < |sent| && sent[i].RoundOut? && sent[i].call == c && sent[i].token == token
  }

  /** And it carried an event of that id. */
  ghost predicate Carried(sent: seq<Frame>, c: CallRef, token: Token, id: Id) {
    exists i :: 0 <= i < |sent| && sent[i].RoundOut? && sent[i].call == c && sent[i].token == token && IdIn(sent[i].events, id)
  }

  // ---------------------------------------------------------------------------------------------------
  // One call.

  /** What a call owes the host: what its handler emitted, less the attempts unsent when it finished. */
  function Owed(call: Call): seq<Event>
    requires call.cut <= |call.emitted|
  {
    if call.finished then call.emitted[..call.cut] + Outcomes(call.emitted[call.cut..]) else call.emitted
  }

  /** Conservation: what the call's frames carried, and then what it still holds, is what it owes. */
  ghost predicate Balanced(sent: seq<Frame>, call: Call, c: CallRef) {
    call.cut <= |call.emitted| && Delivered(sent, c) + call.buffered == Owed(call)
  }

  ghost predicate Awaiting(pendings: seq<Pending>, id: Id, p: PendingRef, c: CallRef) {
    p < |pendings| && pendings[p].id == id && pendings[p].call == c
  }

  ghost predicate NextOk(pendings: seq<Pending>, call: Call, c: CallRef) {
    forall id :: id in call.nextAwaiting ==>
      Awaiting(pendings, id, call.nextAwaiting[id], c) && IdIn(call.buffered, id)
  }

  ghost predicate RoundOk(t: Seam, call: Call, c: CallRef) {
    call.round.Some? ==>
      var round := call.round.value;
      && call.current.None? && round.token in t.rounds && t.rounds[round.token] == c && round.token < t.minted
      && Minted(t.sent, c, round.token)
      && forall id :: id in round.awaiting ==>
           Awaiting(t.pendings, id, round.awaiting[id], c) && Carried(t.sent, c, round.token, id)
  }

  /** The request a call has open was not answered, unless by its final frame. */
  ghost predicate RequestOk(t: Seam, call: Call, c: CallRef) {
    call.current.Some? ==>
      && call.current.value.arrival < t.arrivals
      && (Replied(t.sent, call.current.value.arrival) ==> FinalSent(t.sent, c))
  }

  /** After its final frame a call has nothing left to say. */
  ghost predicate EndOk(t: Seam, call: Call, c: CallRef) {
    && (FinalSent(t.sent, c) ==> call.finished && call.buffered == [] && call.round.None?)
    && (call.current.None? && call.round.None? ==> !(call.original.id in t.tracked && t.tracked[call.original.id] == c))
    && (call.finished ==> call.nextAwaiting == map[])
    && (!call.modern ==> call.current == Some(call.original) && call.buffered == [] && call.emitted == [] && call.round.None?
                         && call.nextAwaiting == map[])
  }

  ghost predicate CallOk(t: Seam, c: CallRef)
    requires c < |t.calls|
  {
    var call := t.calls[c];
    && Balanced(t.sent, call, c) && NextOk(t.pendings, call, c) && RoundOk(t, call, c)
    && RequestOk(t, call, c) && EndOk(t, call, c)
  }

  // ---------------------------------------------------------------------------------------------------
  // The whole state.

  /** Each token out names the call whose round it closes. */
  ghost predicate RoundsOk(t: Seam) {
    forall token :: token in t.rounds ==>
      && t.rounds[token] < |t.calls| && t.calls[t.rounds[token]].round.Some?
      && t.calls[t.rounds[token]].round.value.token == token
  }

  ghost predicate RequestsDistinct(calls: seq<Call>) {
    forall a, b :: 0 <= a < b < |calls| && calls[a].current.Some? && calls[b].current.Some? ==>
      calls[a].current.value.arrival != calls[b].current.value.arrival
  }

  ghost predicate SentOk(sent: seq<Frame>, arrivals: nat, calls: nat) {
    && RepliedOnce(sent)
    && (forall i :: 0 <= i < |sent| && Replies(sent[i]).Some? ==> Replies(sent[i]).value.arrival < arrivals)
    && (forall i :: 0 <= i < |sent| && About(sent[i]).Some? ==> About(sent[i]).value < calls)
  }

  /** The token was given back by a request that named the call's session. */
  ghost predicate RetriedInSession(resumed: seq<Resumption>, c: CallRef, token: Token) {
    exists k :: 0 <= k < |resumed| && resumed[k].token == token && resumed[k].call == c && resumed[k].named
  }

  /** Where an accept may come from: the retry that closed the attempt's own round, under the call's session. */
  ghost predicate Justified(t: Seam, p: Pending) {
    p.once.Settled? && p.once.answer.Accepted? ==>
      p.once.how.ByPeer?
      || (p.once.how.ByRetry? && RetriedInSession(t.resumed, p.call, p.once.how.token)
          && Carried(t.sent, p.call, p.once.how.token, p.id))
  }

  ghost predicate PendingsOk(t: Seam) {
    forall i :: 0 <= i < |t.pendings| ==> t.pendings[i].call < |t.calls| && Justified(t, t.pendings[i])
  }

  /** Each token resumes one call, that of its round, one time. */
  ghost predicate ResumedOk(t: Seam) {
    && (forall k :: 0 <= k < |t.resumed| ==>
          t.resumed[k].token < t.minted && t.resumed[k].token !in t.rounds && Minted(t.sent, t.resumed[k].call, t.resumed[k].token))
    && (forall k, l :: 0 <= k < l < |t.resumed| ==> t.resumed[k].token != t.resumed[l].token)
    && (forall i :: 0 <= i < |t.sent| && t.sent[i].RoundOut? ==> t.sent[i].token < t.minted)
    && (forall i, j :: 0 <= i < j < |t.sent| && t.sent[i].RoundOut? && t.sent[j].RoundOut? ==> t.sent[i].token != t.sent[j].token)
  }

  ghost predicate AllOk(t: Seam) {
    forall c :: 0 <= c < |t.calls| ==> CallOk(t, c)
  }

  ghost predicate Good(t: Seam) {
    && AllOk(t) && RoundsOk(t) && RequestsDistinct(t.calls)
    && SentOk(t.sent, t.arrivals, |t.calls|) && PendingsOk(t) && ResumedOk(t)
  }

  /** The parts of a state the invariant looks at. */
  ghost predicate SameCore(t: Seam, t': Seam) {
    && t'.calls == t.calls && t'.pendings == t.pendings && t'.tracked == t.tracked && t'.rounds == t.rounds
    && t'.minted == t.minted && t'.arrivals == t.arrivals && t'.resumed == t.resumed && t'.sent == t.sent
  }

  lemma SameCoreKeeps(t: Seam, t': Seam)
    requires Good(t) && SameCore(t, t')
    ensures Good(t')
  {
    forall c | 0 <= c < |t'.calls|
      ensures CallOk(t', c)
    {
      assert CallOk(t, c);
    }
    forall i | 0 <= i < |t'.pendings|
      ensures t'.pendings[i].call < |t'.calls| && Justified(t', t'.pendings[i])
    {
      assert Justified(t, t.pendings[i]);
    }
  }

  // ---------------------------------------------------------------------------------------------------
  // A step that concerns one call leaves the others as they are.

  /** Attempts keep who they are, and what they were settled with. */
  ghost predicate Stable(p: seq<Pending>, p': seq<Pending>) {
    && |p| <= |p'|
    && forall i :: 0 <= i < |p| ==>
         p'[i].id == p[i].id && p'[i].call == p[i].call && (p[i].once.Settled? ==> p'[i].once == p[i].once)
  }

  ghost predicate OwnFrames(sent: seq<Frame>, sent': seq<Frame>, c: CallRef, open: Option<Request>) {
    && sent <= sent'
    && forall i :: |sent| <= i < |sent'| ==>
         About(sent'[i]) == Some(c) && (Replies(sent'[i]).Some? ==> Replies(sent'[i]) == open)
  }

  ghost predicate Touches(t: Seam, t': Seam, c: CallRef)
    requires c < |t.calls|
  {
    && |t'.calls| == |t.calls| && (forall k :: 0 <= k < |t.calls| && k != c ==> t'.calls[k] == t.calls[k])
    && Stable(t.pendings, t'.pendings)
    && OwnFrames(t.sent, t'.sent, c, t.calls[c].current)
    && (forall token :: token in t.rounds && t.rounds[token] != c ==> token in t'.rounds && t'.rounds[token] == t.rounds[token])
    && (forall token :: token in t'.rounds && t'.rounds[token] != c ==> token in t.rounds && t'.rounds[token] == t.rounds[token])
    && t.minted <= t'.minted && t.arrivals <= t'.arrivals
    && (forall id :: id in t'.tracked && t'.tracked[id] != c ==> id in t.tracked && t'.tracked[id] == t.tracked[id])
  }

  lemma {:induction false} OthersDelivered(sent: seq<Frame>, sent': seq<Frame>, c: CallRef, other: CallRef)
    requires sent <= sent' && other != c
    requires forall i :: |sent| <= i < |sent'| ==> About(sent'[i]) == Some(c)
    ensures Delivered(sent', other) == Delivered(sent, other)
    decreases |sent'|
  {
    if |sent'| == |sent| {
      assert sent' == sent;
    } else {
      OthersDelivered(sent, sent'[..|sent'| - 1], c, other);
    }
  }

  lemma OthersFinal(sent: seq<Frame>, sent': seq<Frame>, c: CallRef, other: CallRef, open: Option<Request>)
    requires OwnFrames(sent, sent', c, open) && other != c
    ensures FinalSent(sent', other) <==> FinalSent(sent, other)
  {
  }

  lemma OthersReplied(sent: seq<Frame>, sent': seq<Frame>, c: CallRef, open: Option<Request>, arrival: nat)
    requires OwnFrames(sent, sent', c, open) && Replied(sent', arrival)
    ensures Replied(sent, arrival) || (open.Some? && open.value.arrival == arrival)
  {
  }

  lemma CarriedStays(sent: seq<Frame>, sent': seq<Frame>, c: CallRef, token: Token, id: Id)
    requires sent <= sent'
    ensures Minted(sent, c, token) ==> Minted(sent', c, token)
    ensures Carried(sent, c, token, id) ==> Carried(sent', c, token, id)
  {
  }

  lemma RoundStaysOk(t: Seam, t': Seam, call: Call, c: CallRef)
    requires RoundOk(t, call, c) && t.sent <= t'.sent && Stable(t.pendings, t'.pendings) && t.minted <= t'.minted
    requires call.round.Some? ==> call.round.value.token in t'.rounds && t'.rounds[call.round.value.token] == c
    ensures RoundOk(t', call, c)
  {
  }

  /** The others stay as they should be. */
  lemma OtherStaysOk(t: Seam, t': Seam, c: CallRef, other: CallRef)
    requires c < |t.calls| && other < |t.calls| && other != c
    requires Touches(t, t', c) && CallOk(t, other) && RequestsDistinct(t.calls)
    ensures CallOk(t', other)
  {
    var call := t.calls[other];
    OthersDelivered(t.sent, t'.sent, c, other);
    OthersFinal(t.sent, t'.sent, c, other, t.calls[c].current);
    RoundStaysOk(t, t', call, other);
    if call.current.Some? && Replied(t'.sent, call.current.value.arrival) {
      OthersReplied(t.sent, t'.sent, c, t.calls[c].current, call.current.value.arrival);
    }
  }

  lemma OthersStayOk(t: Seam, t': Seam, c: CallRef)
    requires c < |t.calls| && Touches(t, t', c) && AllOk(t) && RequestsDistinct(t.calls)
    requires CallOk(t', c)
    ensures AllOk(t')
  {
    forall k | 0 <= k < |t'.calls|
      ensures CallOk(t', k)
    {
      if k != c {
        OtherStaysOk(t, t', c, k);
      }
    }
  }

  lemma JustifiedStays(t: Seam, t': Seam, p: Pending)
    requires Justified(t, p) && t.sent <= t'.sent && t.resumed <= t'.resumed
    ensures Justified(t', p)
  {
  }

  /** Every attempt that is settled as accepted now was settled so before. */
  ghost predicate NoNewAccept(p: seq<Pending>, p': seq<Pending>) {
    forall i :: 0 <= i < |p'| && p'[i].once.Settled? && p'[i].once.answer.Accepted? ==> i < |p| && p[i] == p'[i]
  }

  lemma PendingsStayOk(t: Seam, t': Seam)
    requires PendingsOk(t) && t.sent <= t'.sent && t.resumed <= t'.resumed && |t.calls| <= |t'.calls|
    requires NoNewAccept(t.pendings, t'.pendings)
    requires forall i :: 0 <= i < |t'.pendings| ==> t'.pendings[i].call < |t'.calls|
    ensures PendingsOk(t')
  {
  }

  lemma UnanswerIsQuiet(pendings: seq<Pending>, refs: set<PendingRef>, how: How)
    ensures Stable(pendings, Unanswer(pendings, refs, how)) && NoNewAccept(pendings, Unanswer(pendings, refs, how))
    ensures forall i :: 0 <= i < |pendings| ==> Unanswer(pendings, refs, how)[i].call == pendings[i].call
  {
  }

}
