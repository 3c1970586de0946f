/**
 * The tool's side of the wire: the calls it serves, and the rounds by which one call's attempts are answered. Every
 * step between two waits is a function of the state; sending a frame is part of the step that sends it.
 */
module Seams {
  import opened Records
  import opened Ordering

  type RequestId = nat
  type Token = nat
  /** A call is named by its place among all calls ever taken, a pending attempt by its place among all attempts. */
  type CallRef = nat
  type PendingRef = nat
  type WireId = nat

  /** The bound on idle sessions, and on concluded calls waiting for a retry. */
  const MAX_IDLE_SESSIONS := 1024

  /** A request: its JSON-RPC id, which a peer may use again, and its place in the order of arrival. */
  datatype Request = Request(id: RequestId, arrival: nat)

  datatype Answer = Accepted | Rejected | Unanswered

  datatype How = ByRetry(token: Token) | ByPeer(wire: WireId) | ByTimeout | ByEnd

  /** A value that is settled once; later settlements are ignored. */
  datatype Once = Waiting | Settled(answer: Answer, how: How)

  datatype Pending = Pending(id: Id, call: CallRef, once: Once)

  /** The round that is out: the token it was issued under, and the attempts it carried. */
  datatype Round = Round(token: Token, awaiting: map<Id, PendingRef>)

  /** The handler's final frame: a result, its own request for input, or an error. */
  datatype Kind = Done | Asks | Failure

  datatype Final = Final(kind: Kind, body: nat)

  /**
   * A `tools/call` being served. `emitted` is every event its handler emitted before it finished, and `cut` how many
   * of them had left by then, and `written` is that its handler has answered; all three only record what happened.
   */
  datatype Call = Call(
    original: Request,
    modern: bool,
    session: Option<SessionId>,
    numbering: nat,
    ids: set<RequestId>,
    current: Option<Request>,
    buffered: seq<Event>,
    nextAwaiting: map<Id, PendingRef>,
    round: Option<Round>,
    scheduled: bool,
    written: bool,
    finished: bool,
    cancelled: bool,
    held: Option<Final>,
    accepted: set<Id>,
    emitted: seq<Event>,
    cut: nat)

  /** A session the host issued, its numbering, and how many requests in flight carry it. */
  datatype ToolSession = ToolSession(numbering: nat, live: int)

  datatype Frame =
    | RoundOut(request: Request, call: CallRef, token: Token, events: seq<Event>)
    | FinalOut(request: Request, call: CallRef, final: Final, events: seq<Event>)
    | NoOpenRound(request: Request)
    | PassedThrough(request: Request, call: CallRef, final: Final)
    | AttemptOut(wire: WireId, call: CallRef, event: Event)
    | OutcomeOut(call: CallRef, event: Event)

  /** A round's token was given back: by which request, and whether it named the call's session. */
  datatype Resumption = Resumption(token: Token, call: CallRef, request: Request, named: bool)

  datatype Seam = Seam(
    calls: seq<Call>,
    pendings: seq<Pending>,
    tracked: map<RequestId, CallRef>,
    rounds: map<Token, CallRef>,
    minted: nat,
    sessions: map<SessionId, ToolSession>,
    idle: seq<SessionId>,
    concluded: seq<CallRef>,
    cancelledIds: set<RequestId>,
    wires: map<WireId, PendingRef>,
    nextWire: nat,
    arrivals: nat,
    numberings: nat,
    resumed: seq<Resumption>,
    sent: seq<Frame>)

  const EMPTY := Seam([], [], map[], map[], 0, map[], [], [], {}, map[], 0, 0, 0, [], [])

  // ---------------------------------------------------------------------------------------------------
  // Lists.

  /** The events that are not attempts. */
  function Outcomes(events: seq<Event>): seq<Event> {
    if events == [] then [] else
      var front, last := Outcomes(events[..|events| - 1]), events[|events| - 1];
      if last.outcome.Attempted? then front else front + [last]
  }

  predicate CarriesAttempt(events: seq<Event>) {
    exists i :: 0 <= i < |events| && events[i].outcome.Attempted?
  }

  // ---------------------------------------------------------------------------------------------------
  // Pending attempts.

  /** Settle these as unanswered, those that are not settled yet. */
  function Unanswer(pendings: seq<Pending>, refs: set<PendingRef>, how: How): (r: seq<Pending>)
    ensures |r| == |pendings|
  {
    seq(|pendings|, i requires 0 <= i < |pendings| =>
      if i in refs && pendings[i].once.Waiting? then pendings[i].(once := Settled(Unanswered, how)) else pendings[i])
  }

  function AnswerIn(responses: map<Id, Answer>, id: Id): Answer {
    if id in responses then responses[id] else Unanswered
  }

  /** An attempt a round carried, not settled yet. */
  predicate Awaited(pendings: seq<Pending>, awaiting: map<Id, PendingRef>, i: PendingRef)
    requires i < |pendings|
  {
    pendings[i].id in awaiting && awaiting[pendings[i].id] == i && pendings[i].once.Waiting?
  }

  /** Settle a round's attempts with the answers its retry brought, and those it brought none for as unanswered. */
  function SettleRound(pendings: seq<Pending>, round: Round, responses: map<Id, Answer>): (r: seq<Pending>)
    ensures |r| == |pendings|
  {
    seq(|pendings|, i requires 0 <= i < |pendings| =>
      if Awaited(pendings, round.awaiting, i)
      then pendings[i].(once := Settled(AnswerIn(responses, pendings[i].id), ByRetry(round.token)))
      else pendings[i])
  }

  /** The attempts that an operation is under way for since the retry. */
  function NowAccepted(pendings: seq<Pending>, round: Round, responses: map<Id, Answer>): set<Id> {
    set i | 0 <= i < |pendings| && Awaited(pendings, round.awaiting, i) && AnswerIn(responses, pendings[i].id).Accepted?
      :: pendings[i].id
  }

  // ---------------------------------------------------------------------------------------------------
  // Sessions.

  function DropSession(t: Seam, id: SessionId): (t': Seam)
    ensures t'.calls == t.calls
  {
    t.(sessions := t.sessions - {id}, idle := Dropping(t.idle, id))
  }

  function EvictIdle(t: Seam): (t': Seam)
    ensures t'.calls == t.calls
    decreases |t.idle|
  {
    if |t.idle| <= MAX_IDLE_SESSIONS then t else EvictIdle(DropSession(t, t.idle[0]))
  }

  function KeepIdle(t: Seam, id: SessionId): (t': Seam)
    ensures t'.calls == t.calls
  {
    EvictIdle(t.(idle := Dropping(t.idle, id) + [id]))
  }

  /** A request that carried the session is done with. */
  function LeaveSession(t: Seam, id: SessionId, final: bool): (t': Seam)
    ensures t'.calls == t.calls
  {
    if id !in t.sessions then t else
      var live := t.sessions[id].live - 1;
      var left := t.(sessions := t.sessions[id := t.sessions[id].(live := live)]);
      if live > 0 then left else if final then DropSession(left, id) else KeepIdle(left, id)
  }

  /** The session a request carries: the one its call's first request opened, or a new one. */
  function AcquireSession(t: Seam, id: SessionId): (Seam, nat) {
    var known := if id in t.sessions then t.sessions[id] else ToolSession(t.numberings, 0);
    (t.(numberings := if id in t.sessions then t.numberings else t.numberings + 1,
        sessions := t.sessions[id := known.(live := known.live + 1)],
        idle := Dropping(t.idle, id)),
     known.numbering)
  }

  // ---------------------------------------------------------------------------------------------------
  // The end of a request.

  predicate Tracks(t: Seam, c: CallRef)
    requires c < |t.calls|
  {
    var id := t.calls[c].original.id;
    id in t.tracked && t.tracked[id] == c
  }

  /** The concluded calls but the one kept under an id. */
  function DroppingHeld(calls: seq<Call>, concluded: seq<CallRef>, id: RequestId): (r: seq<CallRef>)
    ensures |r| <= |concluded|
  {
    if concluded == [] then [] else
      var front, last := DroppingHeld(calls, concluded[..|concluded| - 1], id), concluded[|concluded| - 1];
      if last < |calls| && calls[last].original.id == id then front else front + [last]
  }

  /** The requests of the wire that are a call's. */
  function WiresOf(t: Seam, c: CallRef): set<WireId> {
    set w | w in t.wires && t.wires[w] < |t.pendings| && t.pendings[t.wires[w]].call == c
  }

  function StillWaiting(t: Seam, c: CallRef): set<PendingRef>
    requires c < |t.calls|
  {
    var call := t.calls[c];
    (if call.round.Some? then call.round.value.awaiting.Values else {}) + call.nextAwaiting.Values
      + set w | w in WiresOf(t, c) :: t.wires[w]
  }

  /** Drop a request's state: its round closes, and its attempts are unanswered. */
  function Dropped(t: Seam, c: CallRef): (t': Seam)
    requires c < |t.calls|
    ensures |t'.calls| == |t.calls|
  {
    var call := t.calls[c];
    t.(tracked := t.tracked - {call.original.id},
       concluded := DroppingHeld(t.calls, t.concluded, call.original.id),
       calls := t.calls[c := call.(held := None, round := None, nextAwaiting := map[])],
       rounds := if call.round.Some? then t.rounds - {call.round.value.token} else t.rounds,
       pendings := Unanswer(t.pendings, StillWaiting(t, c), ByEnd),
       wires := t.wires - WiresOf(t, c))
  }

  /** The request is done with: its state is dropped and its session left. */
  function Release(t: Seam, c: CallRef, final: bool): (t': Seam)
    requires c < |t.calls|
    ensures |t'.calls| == |t.calls|
  {
    if !Tracks(t, c) then t else
      var session := t.calls[c].session;
      if session.None? then Dropped(t, c) else LeaveSession(Dropped(t, c), session.value, final)
  }

  function Abandon(t: Seam, c: CallRef): (t': Seam)
    requires c < |t.calls|
    ensures |t'.calls| == |t.calls|
  {
    Release(t.(calls := t.calls[c := t.calls[c].(cancelled := true)]), c, true)
  }

  // ---------------------------------------------------------------------------------------------------
  // Rounds.

  /** Answer the request that is open with the events buffered, and wait for its retry. */
  function EndRound(t: Seam, c: CallRef): (t': Seam)
    requires c < |t.calls|
    ensures |t'.calls| == |t.calls|
  {
    var call := t.calls[c];
    if call.current.None? || call.buffered == [] then t else
      t.(calls := t.calls[c := call.(current := None, buffered := [], nextAwaiting := map[],
                                     round := Some(Round(t.minted, call.nextAwaiting)))],
         rounds := t.rounds[t.minted := c],
         minted := t.minted + 1,
         sent := t.sent + [RoundOut(call.current.value, c, t.minted, call.buffered)])
  }

  /** Keep a concluded call for its round's retry, dropping the least recently kept beyond the bound. */
  function KeepConcluded(t: Seam, c: CallRef, final: Final): (t': Seam)
    requires c < |t.calls|
    ensures |t'.calls| == |t.calls|
  {
    var call := t.calls[c];
    EvictConcluded(t.(calls := t.calls[c := call.(held := Some(final))],
                      concluded := DroppingHeld(t.calls, t.concluded, call.original.id) + [c]), 0)
  }

  function EvictConcluded(t: Seam, i: nat): (t': Seam)
    ensures |t'.calls| == |t.calls|
    decreases |t.concluded| - i
  {
    if |t.concluded| <= MAX_IDLE_SESSIONS || i >= |t.concluded| || t.concluded[i] >= |t.calls| then t else
      var t' := Abandon(t, t.concluded[i]);
      if |t'.concluded| < |t.concluded| then EvictConcluded(t', i)
      else if |t'.concluded| == |t.concluded| then EvictConcluded(t', i + 1)
      else t'
  }

  /**
   * Answer the open request with the call's final frame and release the call. An error has nowhere to carry
   * outcomes, so outcomes still buffered go in a round of their own first, and the error waits for its retry.
   */
  function ConcludeCall(t: Seam, c: CallRef, final: Final): (t': Seam)
    requires c < |t.calls|
    ensures |t'.calls| == |t.calls|
  {
    var call := t.calls[c];
    if final.kind.Failure? && call.buffered != [] then KeepConcluded(EndRound(t, c), c, final) else
      var answered := t.(calls := t.calls[c := call.(buffered := [])],
                         sent := if call.current.None? then t.sent
                                 else t.sent + [FinalOut(call.current.value, c, final, call.buffered)]);
      Release(answered, c, !final.kind.Asks?)
  }

  /** The handler is done: attempts it never sent are dropped, and nobody waits for them. */
  function Marked(t: Seam, c: CallRef): (t': Seam)
    requires c < |t.calls|
    ensures |t'.calls| == |t.calls|
  {
    var call := t.calls[c];
    t.(calls := t.calls[c := call.(finished := true, buffered := Outcomes(call.buffered), nextAwaiting := map[],
                                   cut := |call.emitted| - (if |call.buffered| <= |call.emitted| then |call.buffered| else 0))],
       pendings := Unanswer(t.pendings, call.nextAwaiting.Values, ByEnd))
  }

  /** Then its frame goes out, or waits for the retry of the round that is. */
  function FinishCall(t: Seam, c: CallRef, final: Final): (t': Seam)
    requires c < |t.calls|
    ensures |t'.calls| == |t.calls|
  {
    if t.calls[c].round.Some? then KeepConcluded(Marked(t, c), c, final) else ConcludeCall(Marked(t, c), c, final)
  }

  /** Under the older binding an outcome has gone on its own already: the final frame goes as it is. */
  function FinishLegacy(t: Seam, c: CallRef, final: Final): (t': Seam)
    requires c < |t.calls|
  {
    var call := t.calls[c];
    Release(t.(calls := t.calls[c := call.(finished := true)],
               sent := t.sent + [FinalOut(call.original, c, final, [])]), c, !final.kind.Asks?)
  }

  // ---------------------------------------------------------------------------------------------------
  // When the connection may be closed.

  /** A call whose handler is running rather than waiting for a retry, or that owes an accepted operation's outcome. */
  predicate Busy(t: Seam, id: RequestId)
    requires id in t.tracked && t.tracked[id] < |t.calls|
  {
    var call := t.calls[t.tracked[id]];
    !call.cancelled && !call.finished && (call.round.None? || call.accepted != {})
  }

  /** A call that holds what the host has not received: outcomes for the next round, or a final frame. */
  predicate Undelivered(t: Seam, id: RequestId)
    requires id in t.tracked && t.tracked[id] < |t.calls|
  {
    var call := t.calls[t.tracked[id]];
    !call.cancelled && (call.held.Some? || (call.round.Some? && call.buffered != []))
  }

  /** No call on the connection is busy or holds anything undelivered. */
  predicate AtRest(t: Seam) {
    forall id :: id in t.tracked && t.tracked[id] < |t.calls| ==> !Busy(t, id) && !Undelivered(t, id)
  }

  // ---------------------------------------------------------------------------------------------------
  // What happens.

  datatype Op =
    | Arrives(id: RequestId, modern: bool, session: Option<SessionId>)
    | Retries(id: RequestId, token: Token, named: Option<SessionId>, responses: map<Id, Answer>)
    | EmitsAttempt(call: CallRef, event: Event)
    | EmitsOutcome(call: CallRef, event: Event)
    | RoundTimer(call: CallRef)
    | AttemptTimeout(pending: PendingRef)
    | HandlerAnswers(call: CallRef, final: Final)
    | Cancels(id: RequestId, call: CallRef)
    | Forgets(id: RequestId)
    | PeerAnswers(wire: WireId, answer: Answer)
    | ConnectionLost

  function NewCall(request: Request, modern: bool, session: Option<SessionId>, numbering: nat): Call {
    Call(request, modern, session, numbering, {request.id}, Some(request), [], map[], None,
         false, false, false, false, None, {}, [], 0)
  }

  function TakeCall(t: Seam, id: RequestId, modern: bool, session: Option<SessionId>): Seam {
    var request := Request(id, t.arrivals);
    var (joined, numbering) :=
      if session.Some? then AcquireSession(t, session.value) else (t.(numberings := t.numberings + 1), t.numberings);
    joined.(
      arrivals := t.arrivals + 1,
      cancelledIds := t.cancelledIds - {id},
      tracked := t.tracked[id := |t.calls|],
      calls := t.calls + [NewCall(request, modern, session, numbering)])
  }

  /** A token whose round is out. */
  predicate Resumes(t: Seam, token: Token) {
    && token in t.rounds && t.rounds[token] < |t.calls|
    && t.calls[t.rounds[token]].round.Some? && t.calls[t.rounds[token]].round.value.token == token
  }

  /** A retry resumes the call whose round is out under its token; any other token is refused. */
  function TryToken(t: Seam, request: Request, token: Token, named: Option<SessionId>, responses: map<Id, Answer>): Seam {
    if Resumes(t, token) then AcceptRetry(t, t.rounds[token], request, named, responses)
    else t.(rounds := t.rounds - {token}, sent := t.sent + [NoOpenRound(request)])
  }

  function TakeRetry(t: Seam, id: RequestId, token: Token, named: Option<SessionId>, responses: map<Id, Answer>): Seam {
    TryToken(t.(arrivals := t.arrivals + 1), Request(id, t.arrivals), token, named, responses)
  }

  /** The answers of a retry that names the call's session; one that does not answers nothing. */
  function Heard(call: Call, named: Option<SessionId>, responses: map<Id, Answer>): map<Id, Answer> {
    if named.Some? && named == call.session then responses else map[]
  }

  /** A retry's part up to its answer: the round closes, and its attempts are settled. */
  function Resume(t: Seam, c: CallRef, request: Request, named: Option<SessionId>, responses: map<Id, Answer>): (t': Seam)
    requires c < |t.calls| && t.calls[c].round.Some?
    ensures |t'.calls| == |t.calls|
  {
    var call := t.calls[c];
    var round, heard := call.round.value, Heard(call, named, responses);
    t.(calls := t.calls[c := call.(round := None, current := Some(request), ids := call.ids + {request.id},
                                   accepted := call.accepted + NowAccepted(t.pendings, round, heard))],
       rounds := t.rounds - {round.token},
       pendings := SettleRound(t.pendings, round, heard),
       resumed := t.resumed + [Resumption(round.token, c, request, named.Some? && named == call.session)])
  }

  function AcceptRetry(t: Seam, c: CallRef, request: Request, named: Option<SessionId>, responses: map<Id, Answer>): Seam
    requires c < |t.calls| && t.calls[c].round.Some?
  {
    var resumed := Resume(t, c, request, named, responses);
    var call := resumed.calls[c];
    if call.held.Some? then
      ConcludeCall(resumed.(calls := resumed.calls[c := call.(held := None)],
                            concluded := DroppingHeld(t.calls, t.concluded, call.original.id)), c, call.held.value)
    else if !call.finished && CarriesAttempt(call.buffered) then
      resumed.(calls := resumed.calls[c := call.(scheduled := true)])
    else resumed
  }

  function EmitAttempt(t: Seam, c: CallRef, e: Event): Seam
    requires c < |t.calls|
  {
    var call := t.calls[c];
    if call.finished || call.cancelled then t else
      var pending := t.(pendings := t.pendings + [Pending(e.id, c, Waiting)]);
      if call.modern then
        pending.(calls := t.calls[c := call.(buffered := call.buffered + [e], emitted := call.emitted + [e], scheduled := true,
                                             nextAwaiting := call.nextAwaiting[e.id := |t.pendings|])])
      else
        pending.(wires := t.wires[t.nextWire := |t.pendings|], nextWire := t.nextWire + 1,
                 sent := t.sent + [AttemptOut(t.nextWire, c, e)])
  }

  function EmitOutcome(t: Seam, c: CallRef, e: Event): Seam
    requires c < |t.calls|
  {
    var call := t.calls[c];
    if call.finished || call.cancelled then t
    else if call.modern then
      t.(calls := t.calls[c := call.(buffered := call.buffered + [e], emitted := call.emitted + [e],
                                     accepted := call.accepted - {e.id})])
    else t.(sent := t.sent + [OutcomeOut(c, e)])
  }

  /** The turn after attempts were emitted: they leave together. */
  function TimeRound(t: Seam, c: CallRef): Seam
    requires c < |t.calls|
  {
    var call := t.calls[c];
    if !call.scheduled then t else
      var due := t.(calls := t.calls[c := call.(scheduled := false)]);
      if call.finished || call.cancelled then due else EndRound(due, c)
  }

  function TimeOut(t: Seam, p: PendingRef): Seam
    requires p < |t.pendings|
  {
    if !t.pendings[p].once.Waiting? then t else
      t.(pendings := Unanswer(t.pendings, {p}, ByTimeout), wires := t.wires - set w | w in t.wires && t.wires[w] == p)
  }

  /** The call being served under an id, where its handler has not finished. */
  predicate Serves(t: Seam, id: RequestId) {
    id in t.tracked && t.tracked[id] < |t.calls| && !t.calls[t.tracked[id]].finished
  }

  function Noted(t: Seam, c: CallRef): (t': Seam)
    requires c < |t.calls|
    ensures |t'.calls| == |t.calls|
  {
    t.(calls := t.calls[c := t.calls[c].(written := true)])
  }

  /** What becomes of a handler's frame. It names its request's id only, so it goes to whatever call has that id now. */
  function Outbound(t: Seam, c: CallRef, final: Final): Seam
    requires c < |t.calls|
  {
    var id := t.calls[c].original.id;
    if id in t.cancelledIds then t.(cancelledIds := t.cancelledIds - {id})
    else if Serves(t, id) then
      if t.calls[t.tracked[id]].modern then FinishCall(t, t.tracked[id], final) else FinishLegacy(t, t.tracked[id], final)
    else t.(sent := t.sent + [PassedThrough(t.calls[c].original, c, final)])
  }

  /** A handler answers its request, once. */
  function WriteFinal(t: Seam, c: CallRef, final: Final): Seam
    requires c < |t.calls|
  {
    if t.calls[c].written then t else Outbound(Noted(t, c), c, final)
  }

  /** A cancellation names any id the call was served under. Where several calls were, it may mean any of them. */
  function Cancel(t: Seam, id: RequestId, c: CallRef): Seam
    requires c < |t.calls|
  {
    if !Tracks(t, c) || id !in t.calls[c].ids then t else
      var dropped := Abandon(t, c);
      if t.calls[c].finished then dropped
      else dropped.(cancelledIds := dropped.cancelledIds + {t.calls[c].original.id})
  }

  function PeerAnswer(t: Seam, wire: WireId, answer: Answer): Seam {
    if wire !in t.wires then t else
      var p := t.wires[wire];
      t.(wires := t.wires - {wire},
         pendings := if p < |t.pendings| && t.pendings[p].once.Waiting?
                     then t.pendings[p := t.pendings[p].(once := Settled(answer, ByPeer(wire)))] else t.pendings)
  }

  function AbandonAll(t: Seam, ids: seq<RequestId>): (t': Seam)
    ensures |t'.calls| == |t.calls|
  {
    if ids == [] then t else
      var before := AbandonAll(t, ids[..|ids| - 1]);
      var id := ids[|ids| - 1];
      if id in before.tracked && before.tracked[id] < |before.calls| then Abandon(before, before.tracked[id]) else before
  }

  /** Everyone in flight is abandoned, in whatever order; nothing is kept. */
  function Lose(t: Seam): Seam {
    var left := AbandonAll(t, Listed(t.tracked.Keys));
    left.(pendings := Unanswer(left.pendings, left.wires.Values, ByEnd),
          wires := map[], sessions := map[], idle := [], cancelledIds := {})
  }

  function Step(t: Seam, op: Op): Seam {
    match op
    case Arrives(id, modern, session) => TakeCall(t, id, modern, session)
    case Retries(id, token, named, responses) => TakeRetry(t, id, token, named, responses)
    case EmitsAttempt(c, e) => if c < |t.calls| then EmitAttempt(t, c, e) else t
    case EmitsOutcome(c, e) => if c < |t.calls| then EmitOutcome(t, c, e) else t
    case RoundTimer(c) => if c < |t.calls| then TimeRound(t, c) else t
    case AttemptTimeout(p) => if p < |t.pendings| then TimeOut(t, p) else t
    case HandlerAnswers(c, final) => if c < |t.calls| then WriteFinal(t, c, final) else t
    case Cancels(id, c) => if c < |t.calls| then Cancel(t, id, c) else t
    case Forgets(id) => t.(cancelledIds := t.cancelledIds - {id})
    case PeerAnswers(wire, answer) => PeerAnswer(t, wire, answer)
    case ConnectionLost => Lose(t)
  }

  function Run(t: Seam, ops: seq<Op>): Seam {
    if ops == [] then t else Step(Run(t, ops[..|ops| - 1]), ops[|ops| - 1])
  }
}
