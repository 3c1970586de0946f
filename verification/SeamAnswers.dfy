/**
 * How often a request is answered. The transport answers each at most once itself; a handler's frame that finds no
 * call of its id passes through, and that is the one way to a second answer.
 */
module SeamAnswers {
  import opened Records
  import opened Ordering
  import opened Seams
  import opened SeamInvariants
  import opened SeamSteps
  import opened SeamRuns

  /** The request a frame answers, passing through included. */
  function Answers(f: Frame): Option<Request> {
    if f.PassedThrough? then Some(f.request) else Replies(f)
  }

  ghost predicate AnsweredTwice(sent: seq<Frame>, request: Request) {
    exists i, j :: 0 <= i < j < |sent| && Answers(sent[i]) == Some(request) && Answers(sent[j]) == Some(request)
  }

  /** The call's handler had its frame pass through. */
  ghost predicate Passed(sent: seq<Frame>, c: CallRef) {
    exists i :: 0 <= i < |sent| && sent[i].PassedThrough? && sent[i].call == c
  }

  // ---------------------------------------------------------------------------------------------------
  // Whose each answer is.

  /** First requests arrive one after the other. */
  ghost predicate OriginsOk(t: Seam) {
    && (forall c, d :: 0 <= c < d < |t.calls| ==> t.calls[c].original.arrival != t.calls[d].original.arrival)
    && (forall c :: 0 <= c < |t.calls| ==> t.calls[c].original.arrival < t.arrivals)
  }

  predicate HasOpen(call: Call, request: Request) {
    call.current.Some? && call.current.value.arrival == request.arrival
  }

  predicate RepliesTo(f: Frame, request: Request) {
    Replies(f).Some? && Replies(f).value.arrival == request.arrival
  }

  /** A call's first request is open in no other call. */
  ghost predicate OpenOk(calls: seq<Call>) {
    forall c, d :: 0 <= c < |calls| && 0 <= d < |calls| && HasOpen(calls[d], calls[c].original) ==>
      c == d && calls[d].current == Some(calls[c].original)
  }

  /** And the transport answers it only with a frame of that call. */
  ghost predicate RepliesOk(sent: seq<Frame>, calls: seq<Call>) {
    forall i, c :: 0 <= i < |sent| && 0 <= c < |calls| && RepliesTo(sent[i], calls[c].original) ==>
      About(sent[i]) == Some(c) && Replies(sent[i]) == Some(calls[c].original)
  }

  /** What passes through is the answer of a handler to its own request. */
  ghost predicate PassesOk(sent: seq<Frame>, calls: seq<Call>) {
    && (forall i :: 0 <= i < |sent| && sent[i].PassedThrough? ==>
          sent[i].call < |calls| && sent[i].request == calls[sent[i].call].original && calls[sent[i].call].written)
    && (forall i, j :: 0 <= i < j < |sent| && sent[i].PassedThrough? && sent[j].PassedThrough? ==> sent[i].call != sent[j].call)
  }

  ghost predicate Owned(t: Seam) {
    OriginsOk(t) && OpenOk(t.calls) && RepliesOk(t.sent, t.calls) && PassesOk(t.sent, t.calls)
  }

  lemma SteadyOwned(t: Seam, t': Seam, done: Option<CallRef>)
    requires Owned(t) && Steady(t, t', t.arrivals, done)
    ensures Owned(t') && forall c :: Passed(t'.sent, c) <==> Passed(t.sent, c)
  {
  }

  lemma TakingAdds(t: Seam, id: RequestId, modern: bool, session: Option<SessionId>)
    ensures var t' := TakeCall(t, id, modern, session);
            && |t'.calls| == |t.calls| + 1 && t'.calls == t.calls + [t'.calls[|t.calls|]]
            && t'.sent == t.sent && t'.arrivals == t.arrivals + 1
            && t'.calls[|t.calls|].original == Request(id, t.arrivals)
            && t'.calls[|t.calls|].current == Some(Request(id, t.arrivals))
  {
  }

  lemma OneMoreOwned(t: Seam, t': Seam, call: Call)
    requires Owned(t) && SentOk(t.sent, t.arrivals, |t.calls|)
    requires t'.calls == t.calls + [call] && t'.sent == t.sent && t'.arrivals == t.arrivals + 1
    requires call.original.arrival == t.arrivals && call.current == Some(call.original)
    requires forall c :: 0 <= c < |t.calls| && t.calls[c].current.Some? ==> t.calls[c].current.value.arrival < t.arrivals
    ensures Owned(t')
  {
  }

  lemma TakingOwned(t: Seam, id: RequestId, modern: bool, session: Option<SessionId>)
    requires Owned(t) && Good(t)
    ensures Owned(TakeCall(t, id, modern, session)) && TakeCall(t, id, modern, session).sent == t.sent
  {
    var t' := TakeCall(t, id, modern, session);
    TakingAdds(t, id, modern, session);
    forall c | 0 <= c < |t.calls| && t.calls[c].current.Some?
      ensures t.calls[c].current.value.arrival < t.arrivals
    {
      assert CallOk(t, c);
    }
    OneMoreOwned(t, t', t'.calls[|t.calls|]);
  }

  // ---------------------------------------------------------------------------------------------------
  // A handler writes.

  /** The guard: the call's handler has not answered, and its id names neither a cancellation nor a call to finish. */
  predicate PassesNow(t: Seam, c: CallRef) {
    && c < |t.calls| && !t.calls[c].written
    && t.calls[c].original.id !in t.cancelledIds && !Serves(t, t.calls[c].original.id)
  }

  lemma NotedOwned(t: Seam, c: CallRef)
    requires Owned(t) && c < |t.calls|
    ensures Owned(Noted(t, c))
  {
  }

  lemma PassedWith(sent: seq<Frame>, f: Frame, k: CallRef)
    ensures Passed(sent + [f], k) <==> Passed(sent, k) || (f.PassedThrough? && f.call == k)
  {
    var all := sent + [f];
    assert all[|sent|] == f && forall i :: 0 <= i < |sent| ==> all[i] == sent[i];
    if Passed(sent, k) {
      var i :| 0 <= i < |sent| && sent[i].PassedThrough? && sent[i].call == k;
      assert all[i] == sent[i];
    }
  }

  lemma PassingOwned(t: Seam, c: CallRef, final: Final)
    requires Owned(t) && PassesNow(t, c)
    ensures var t' := WriteFinal(t, c, final);
            && Owned(t') && t' == Noted(t, c).(sent := t.sent + [PassedThrough(t.calls[c].original, c, final)])
            && (forall k :: Passed(t'.sent, k) <==> Passed(t.sent, k) || k == c)
  {
    var t', f := WriteFinal(t, c, final), PassedThrough(t.calls[c].original, c, final);
    NotedOwned(t, c);
    forall k
      ensures Passed(t'.sent, k) <==> Passed(t.sent, k) || k == c
    {
      PassedWith(t.sent, f, k);
    }
  }

  /** The call a write finishes, where it finishes one. */
  ghost function Finishes(t: Seam, c: CallRef): Option<CallRef>
    requires c < |t.calls|
  {
    var id := t.calls[c].original.id;
    if id !in t.cancelledIds && Serves(t, id) then Some(t.tracked[id]) else None
  }

  lemma OtherWriteIsSteady(t: Seam, c: CallRef, final: Final)
    requires Structured(t) && c < |t.calls| && !t.calls[c].written && !PassesNow(t, c)
    ensures Steady(Noted(t, c), WriteFinal(t, c, final), t.arrivals, Finishes(Noted(t, c), c))
  {
    var noted := Noted(t, c);
    if Finishes(noted, c).Some? {
      NotedStructured(t, c);
      FinishingIsSteady(noted, c, final, t.arrivals);
    } else {
      AsideIsSteady(noted, noted.(cancelledIds := noted.cancelledIds - {t.calls[c].original.id}));
    }
  }

  /** What a step adds to the frames that passed through: the handler's that writes, if the guard holds. */
  ghost predicate PassesIn(t: Seam, op: Op, c: CallRef) {
    op.HandlerAnswers? && op.call == c && PassesNow(t, c)
  }

  lemma StepOwned(t: Seam, op: Op)
    requires Owned(t) && Good(t) && Structured(t)
    ensures Owned(Step(t, op)) && forall c :: Passed(Step(t, op).sent, c) <==> Passed(t.sent, c) || PassesIn(t, op, c)
  {
    if op.Arrives? {
      TakingOwned(t, op.id, op.modern, op.session);
    } else if !op.HandlerAnswers? {
      StepIsSteady(t, op);
      SteadyOwned(t, Step(t, op), None);
    } else if op.call < |t.calls| && !t.calls[op.call].written {
      if PassesNow(t, op.call) {
        PassingOwned(t, op.call, op.final);
      } else {
        NotedOwned(t, op.call);
        OtherWriteIsSteady(t, op.call, op.final);
        SteadyOwned(Noted(t, op.call), Step(t, op), Finishes(Noted(t, op.call), op.call));
      }
    }
  }

  /** In some step of the run the call's handler had its frame pass through. */
  ghost predicate PassesAt(ops: seq<Op>, c: CallRef) {
    ops != []
    && var n := |ops| - 1;
       PassesAt(ops[..n], c) || PassesIn(Run(EMPTY, ops[..n]), ops[n], c)
  }

  lemma {:induction false} RunOwned(ops: seq<Op>)
    ensures Owned(Run(EMPTY, ops)) && forall c :: Passed(Run(EMPTY, ops).sent, c) <==> PassesAt(ops, c)
  {
    if ops != [] {
      var n := |ops| - 1;
      RunOwned(ops[..n]);
      RunKeeps(ops[..n]);
      StepOwned(Run(EMPTY, ops[..n]), ops[n]);
    }
  }

  // ---------------------------------------------------------------------------------------------------
  // The exact condition, whatever ids are used.

  /** Among the transport's own answers no request has two. */
  lemma TwiceNeedsAPass(t: Seam, request: Request)
    requires Good(t) && Owned(t) && AnsweredTwice(t.sent, request)
    ensures exists c :: 0 <= c < |t.calls| && t.calls[c].original == request && Passed(t.sent, c) && Replied(t.sent, request.arrival)
  {
  }

  lemma PassAndReply(t: Seam, c: CallRef)
    requires Owned(t) && c < |t.calls| && Passed(t.sent, c) && Replied(t.sent, t.calls[c].original.arrival)
    ensures AnsweredTwice(t.sent, t.calls[c].original)
  {
  }

  /**
   * Over any run, with ids used again or not: a request is answered twice if and only if it is the first request of a
   * call that the transport answered it for, and a frame of that call's handler passed through.
   */
  lemma TwiceIffPassed(ops: seq<Op>, request: Request)
    ensures var t := Run(EMPTY, ops);
            AnsweredTwice(t.sent, request) <==>
              exists c :: 0 <= c < |t.calls| && t.calls[c].original == request && PassesAt(ops, c) && Replied(t.sent, request.arrival)
  {
    var t := Run(EMPTY, ops);
    RunKeeps(ops);
    RunOwned(ops);
    if AnsweredTwice(t.sent, request) {
      TwiceNeedsAPass(t, request);
    }
    if c :| 0 <= c < |t.calls| && t.calls[c].original == request && PassesAt(ops, c) && Replied(t.sent, request.arrival) {
      PassAndReply(t, c);
    }
  }

  // ---------------------------------------------------------------------------------------------------
  // Where no request id is ever used again, as the protocol asks of a peer.

  ghost predicate NewId(t: Seam, op: Op) {
    op.Arrives? ==> forall c :: 0 <= c < |t.calls| ==> t.calls[c].original.id != op.id
  }

  ghost predicate NewIds(ops: seq<Op>) {
    forall i :: 0 <= i < |ops| ==> NewId(Run(EMPTY, ops[..i]), ops[i])
  }

  /** A call that ended is no longer tracked, and one that finished did so because its handler answered. */
  ghost predicate CallEnds(t: Seam, c: CallRef)
    requires c < |t.calls|
  {
    var call := t.calls[c];
    && (call.finished ==> call.written)
    && (Tracks(t, c) ==> !call.cancelled)
    && (!Tracks(t, c) ==> call.cancelled || call.finished)
    && (Passed(t.sent, c) ==> call.cancelled && !call.finished && call.written)
  }

  ghost predicate Lone(t: Seam) {
    && (forall c, d :: 0 <= c < d < |t.calls| ==> t.calls[c].original.id != t.calls[d].original.id)
    && (forall c :: 0 <= c < |t.calls| ==> CallEnds(t, c))
  }

  lemma SteadyLone(t: Seam, t': Seam, done: Option<CallRef>)
    requires Lone(t) && Steady(t, t', t.arrivals, done)
    requires forall c :: Passed(t'.sent, c) <==> Passed(t.sent, c)
    requires done.Some? ==> done.value < |t.calls| && t.calls[done.value].written && !Passed(t.sent, done.value)
    ensures Lone(t')
  {
    forall c | 0 <= c < |t'.calls|
      ensures CallEnds(t', c) && t'.calls[c].original == t.calls[c].original
    {
      assert CallEnds(t, c) && Goes(t.calls[c], t'.calls[c], t.arrivals, done == Some(c));
    }
  }

  lemma TakingLone(t: Seam, id: RequestId, modern: bool, session: Option<SessionId>)
    requires Lone(t) && Owned(t) && NewId(t, Arrives(id, modern, session))
    ensures Lone(TakeCall(t, id, modern, session))
  {
    var t' := TakeCall(t, id, modern, session);
    forall c | 0 <= c < |t'.calls|
      ensures CallEnds(t', c)
    {
      if c < |t.calls| {
        assert CallEnds(t, c) && t'.calls[c] == t.calls[c];
      }
    }
  }

  lemma NotedLone(t: Seam, c: CallRef)
    requires Lone(t) && c < |t.calls|
    ensures Lone(Noted(t, c))
  {
    forall k | 0 <= k < |t.calls|
      ensures CallEnds(Noted(t, c), k)
    {
      assert CallEnds(t, k);
    }
  }

  /** The guard, told from the call alone: it was cancelled, the cancellation is remembered no longer, and now it answers. */
  predicate AnswersLate(t: Seam, c: CallRef) {
    && c < |t.calls| && !t.calls[c].written
    && t.calls[c].cancelled && t.calls[c].original.id !in t.cancelledIds
  }

  lemma LateIsPassing(t: Seam, c: CallRef)
    requires Lone(t) && TrackedOk(t)
    ensures PassesNow(t, c) <==> AnswersLate(t, c)
  {
    if c < |t.calls| {
      assert CallEnds(t, c);
      if Serves(t, t.calls[c].original.id) {
        assert t.tracked[t.calls[c].original.id] == c;
      }
    }
  }

  lemma PassingLone(t: Seam, c: CallRef, final: Final)
    requires Lone(t) && Owned(t) && TrackedOk(t) && PassesNow(t, c)
    ensures Lone(WriteFinal(t, c, final))
  {
    var t' := WriteFinal(t, c, final);
    LateIsPassing(t, c);
    PassingOwned(t, c, final);
    forall k | 0 <= k < |t.calls|
      ensures CallEnds(t', k)
    {
      assert CallEnds(t, k);
    }
  }

  lemma OtherWriteLone(t: Seam, c: CallRef, final: Final)
    requires Lone(t) && Owned(t) && Structured(t) && c < |t.calls| && !t.calls[c].written && !PassesNow(t, c)
    ensures Lone(WriteFinal(t, c, final))
  {
    var noted := Noted(t, c);
    NotedLone(t, c);
    NotedOwned(t, c);
    OtherWriteIsSteady(t, c, final);
    SteadyOwned(noted, WriteFinal(t, c, final), Finishes(noted, c));
    assert !Passed(t.sent, c);
    if Finishes(noted, c).Some? {
      assert Finishes(noted, c) == Some(c);
    }
    SteadyLone(noted, WriteFinal(t, c, final), Finishes(noted, c));
  }

  lemma StepLone(t: Seam, op: Op)
    requires Lone(t) && Owned(t) && Structured(t) && NewId(t, op)
    ensures Lone(Step(t, op))
  {
    if op.Arrives? {
      TakingLone(t, op.id, op.modern, op.session);
    } else if !op.HandlerAnswers? {
      StepIsSteady(t, op);
      SteadyOwned(t, Step(t, op), None);
      SteadyLone(t, Step(t, op), None);
    } else if op.call < |t.calls| && !t.calls[op.call].written {
      if PassesNow(t, op.call) {
        PassingLone(t, op.call, op.final);
      } else {
        OtherWriteLone(t, op.call, op.final);
      }
    }
  }

  lemma {:induction false} RunLone(ops: seq<Op>)
    requires NewIds(ops)
    ensures Lone(Run(EMPTY, ops))
  {
    if ops != [] {
      var front := ops[..|ops| - 1];
      NewIdsFront(ops);
      RunLone(front);
      RunOwned(front);
      RunKeeps(front);
      StepLone(Run(EMPTY, front), ops[|ops| - 1]);
    }
  }

  /** In some step of the run the call's handler answers late. */
  ghost predicate AnswersLateIn(ops: seq<Op>, c: CallRef) {
    ops != []
    && var n := |ops| - 1;
       AnswersLateIn(ops[..n], c) || (ops[n].HandlerAnswers? && ops[n].call == c && AnswersLate(Run(EMPTY, ops[..n]), c))
  }

  lemma {:induction false} LateIsPassingIn(ops: seq<Op>, c: CallRef)
    requires NewIds(ops)
    ensures PassesAt(ops, c) <==> AnswersLateIn(ops, c)
  {
    if ops != [] {
      var front := ops[..|ops| - 1];
      NewIdsFront(ops);
      LateIsPassingIn(front, c);
      RunLone(front);
      RunKeeps(front);
      LateIsPassing(Run(EMPTY, front), c);
    }
  }

  lemma NewIdsFront(ops: seq<Op>)
    requires NewIds(ops) && ops != []
    ensures NewIds(ops[..|ops| - 1])
  {
    var front := ops[..|ops| - 1];
    assert forall i :: 0 <= i < |front| ==> front[..i] == ops[..i];
  }

  /** A round of the call answered its first request. */
  ghost predicate RoundAnswered(sent: seq<Frame>, request: Request) {
    exists i :: 0 <= i < |sent| && sent[i].RoundOut? && sent[i].request == request
  }

  /** Before a handler whose frame passed through, only rounds answered for its call. */
  lemma OnlyRoundsReply(t: Seam, c: CallRef)
    requires Good(t) && Owned(t) && Lone(t) && c < |t.calls| && Passed(t.sent, c)
    ensures Replied(t.sent, t.calls[c].original.arrival) <==> RoundAnswered(t.sent, t.calls[c].original)
  {
    assert CallEnds(t, c) && CallOk(t, c);
    if Replied(t.sent, t.calls[c].original.arrival) {
      var j :| 0 <= j < |t.sent| && Replies(t.sent[j]).Some? && Replies(t.sent[j]).value.arrival == t.calls[c].original.arrival;
      assert RepliesTo(t.sent[j], t.calls[c].original);
      assert t.sent[j].FinalOut? ==> FinalSent(t.sent, c);
      assert t.sent[j].RoundOut? && t.sent[j].request == t.calls[c].original;
    }
    if RoundAnswered(t.sent, t.calls[c].original) {
      var j :| 0 <= j < |t.sent| && t.sent[j].RoundOut? && t.sent[j].request == t.calls[c].original;
      assert Replies(t.sent[j]) == Some(t.calls[c].original);
    }
  }

  /**
   * Where no id is used again: a request is answered twice if and only if it is the first request of a call, a round
   * answered it, and the call's handler answers after its call was cancelled and that was remembered no longer.
   */
  lemma TwiceIffLate(ops: seq<Op>, request: Request)
    requires NewIds(ops)
    ensures var t := Run(EMPTY, ops);
            AnsweredTwice(t.sent, request) <==>
              exists c :: 0 <= c < |t.calls| && t.calls[c].original == request && RoundAnswered(t.sent, request) && AnswersLateIn(ops, c)
  {
    var t := Run(EMPTY, ops);
    RunKeeps(ops);
    RunOwned(ops);
    RunLone(ops);
    TwiceIffPassed(ops, request);
    forall c | 0 <= c < |t.calls| && t.calls[c].original == request
      ensures PassesAt(ops, c) && Replied(t.sent, request.arrival) <==> RoundAnswered(t.sent, request) && AnswersLateIn(ops, c)
    {
      LateIsPassingIn(ops, c);
      if PassesAt(ops, c) {
        OnlyRoundsReply(t, c);
      }
    }
  }

  /**
   * So every request, first or retry, is answered at most once where no id is used again and no handler answers after
   * the transport has forgotten its cancellation.
   */
  lemma RequestsAreAnsweredOnce(ops: seq<Op>, i: nat, j: nat)
    requires NewIds(ops) && forall c :: !AnswersLateIn(ops, c)
    requires i < j < |Run(EMPTY, ops).sent|
    ensures var sent := Run(EMPTY, ops).sent; Answers(sent[i]).Some? ==> Answers(sent[i]) != Answers(sent[j])
  {
    var sent := Run(EMPTY, ops).sent;
    if Answers(sent[i]).Some? && Answers(sent[i]) == Answers(sent[j]) {
      TwiceIffLate(ops, Answers(sent[i]).value);
      assert AnsweredTwice(sent, Answers(sent[i]).value);
    }
  }

  // ---------------------------------------------------------------------------------------------------
  // Runs that answer a request twice.

  lemma RunOne(t: Seam, ops: seq<Op>, n: nat)
    requires n < |ops|
    ensures Run(t, ops[..n + 1]) == Step(Run(t, ops[..n]), ops[n])
  {
    assert ops[..n + 1][..n] == ops[..n];
  }

  lemma RunThen(t: Seam, ops: seq<Op>, op: Op)
    ensures Run(t, ops + [op]) == Step(Run(t, ops), op)
  {
    assert (ops + [op])[..|ops|] == ops;
  }

  function RoundRun(e: Event): seq<Op> {
    [Arrives(5, true, None)] + [EmitsAttempt(0, e)] + [RoundTimer(0)]
  }

  /** A call answered by a round is cancelled; its handler answers only after the cancellation is forgotten. */
  function LateRun(e: Event, final: Final): seq<Op> {
    RoundRun(e) + [Cancels(5, 0)] + [Forgets(5)] + [HandlerAnswers(0, final)]
  }

  lemma LateHandlerAnswersAgain(e: Event, final: Final)
    ensures Run(EMPTY, LateRun(e, final)).sent == [RoundOut(Request(5, 0), 0, 0, [e]), PassedThrough(Request(5, 0), 0, final)]
  {
    var t := Run(EMPTY, RoundRun(e));
    RoundRunIs(e);
    RunThen(EMPTY, RoundRun(e), Cancels(5, 0));
    RunThen(EMPTY, RoundRun(e) + [Cancels(5, 0)], Forgets(5));
    RunThen(EMPTY, RoundRun(e) + [Cancels(5, 0)] + [Forgets(5)], HandlerAnswers(0, final));
    LateFrom(t, e, final);
  }

  lemma LateFrom(t: Seam, e: Event, final: Final)
    requires RoundWentOut(t, e) && t.tracked == map[5 := 0] && t.cancelledIds == {}
    ensures Step(Step(Step(t, Cancels(5, 0)), Forgets(5)), HandlerAnswers(0, final)).sent ==
              [RoundOut(Request(5, 0), 0, 0, [e]), PassedThrough(Request(5, 0), 0, final)]
  {
    CancelledIs(t);
    var cancelled := Step(t, Cancels(5, 0));
    ForgottenIs(cancelled);
    PassedIs(Step(cancelled, Forgets(5)), final);
  }

  predicate RoundWentOut(t: Seam, e: Event) {
    OneCall(t) && t.sent == [RoundOut(Request(5, 0), 0, 0, [e])]
  }

  lemma RoundRunIs(e: Event)
    ensures var t := Run(EMPTY, RoundRun(e)); RoundWentOut(t, e) && t.tracked == map[5 := 0] && t.cancelledIds == {}
  {
    var first := [Arrives(5, true, None)];
    assert first == [] + first && Run(EMPTY, []) == EMPTY;
    RunThen(EMPTY, [], Arrives(5, true, None));
    RunThen(EMPTY, first, EmitsAttempt(0, e));
    RunThen(EMPTY, first + [EmitsAttempt(0, e)], RoundTimer(0));
    TakenIs();
    EmittingIs(Step(EMPTY, Arrives(5, true, None)), e);
    TimedIs(Step(Step(EMPTY, Arrives(5, true, None)), EmitsAttempt(0, e)), e);
  }

  predicate Taken(t: Seam) {
    && OneCall(t) && t.tracked == map[5 := 0] && t.cancelledIds == {} && t.sent == [] && t.minted == 0
    && t.calls[0] == NewCall(Request(5, 0), true, None, 0)
  }

  lemma TakenIs()
    ensures Taken(Step(EMPTY, Arrives(5, true, None)))
  {
  }

  predicate Emitting(t: Seam, e: Event) {
    && OneCall(t) && t.tracked == map[5 := 0] && t.cancelledIds == {} && t.sent == [] && t.minted == 0
    && t.calls[0].scheduled && t.calls[0].buffered == [e] && t.calls[0].current == Some(Request(5, 0)) && !t.calls[0].cancelled
  }

  lemma EmittingIs(t: Seam, e: Event)
    requires Taken(t)
    ensures Emitting(Step(t, EmitsAttempt(0, e)), e)
  {
  }

  lemma TimedIs(t: Seam, e: Event)
    requires Emitting(t, e)
    ensures var t' := Step(t, RoundTimer(0)); RoundWentOut(t', e) && t'.tracked == map[5 := 0] && t'.cancelledIds == {}
  {
  }

  predicate OneCall(t: Seam) {
    && |t.calls| == 1 && t.calls[0].original == Request(5, 0) && 5 in t.calls[0].ids && t.calls[0].session.None?
    && !t.calls[0].finished && !t.calls[0].written
  }

  lemma CancelledIs(t: Seam)
    requires OneCall(t) && t.tracked == map[5 := 0] && t.cancelledIds == {}
    ensures var t' := Step(t, Cancels(5, 0)); OneCall(t') && t'.sent == t.sent && t'.tracked == map[] && t'.cancelledIds == {5}
  {
  }

  lemma ForgottenIs(t: Seam)
    requires OneCall(t) && t.cancelledIds == {5} && t.tracked == map[]
    ensures var t' := Step(t, Forgets(5)); OneCall(t') && t'.sent == t.sent && t'.tracked == map[] && t'.cancelledIds == {}
  {
  }

  lemma PassedIs(t: Seam, final: Final)
    requires OneCall(t) && t.cancelledIds == {} && t.tracked == map[]
    ensures Step(t, HandlerAnswers(0, final)).sent == t.sent + [PassedThrough(Request(5, 0), 0, final)]
  {
  }

  /** An id is used again after its call was cancelled, and both handlers answer. */
  function ReuseRun(first: Final, second: Final): seq<Op> {
    [Arrives(5, true, None), Cancels(5, 0), Arrives(5, true, None), HandlerAnswers(0, first), HandlerAnswers(1, second)]
  }

  /**
   * Here no round is out and nobody is late about a cancellation of its own: the second request is answered with the
   * first handler's frame, and again with its own. So ids used again need the other condition.
   */
  lemma ReusedIdIsAnsweredAgain(first: Final, second: Final)
    ensures Run(EMPTY, ReuseRun(first, second)).sent ==
              [FinalOut(Request(5, 1), 1, first, []), PassedThrough(Request(5, 1), 1, second)]
  {
    var ops := ReuseRun(first, second);
    assert ops[..0] == [] && ops[..5] == ops;
    RunOne(EMPTY, ops, 0);
    RunOne(EMPTY, ops, 1);
    RunOne(EMPTY, ops, 2);
    RunOne(EMPTY, ops, 3);
    RunOne(EMPTY, ops, 4);
    var t1 := Run(EMPTY, ops[..1]);
    assert OneCall(t1) && t1.tracked == map[5 := 0] && t1.cancelledIds == {} && t1.sent == [] && t1.arrivals == 1;
    ReuseTaken(t1);
    ReuseFinishes(Run(EMPTY, ops[..3]), first);
    ReusePasses(Run(EMPTY, ops[..4]), second);
  }

  /** The second call of the id, not answered yet, with the first one's handler still to answer. */
  predicate TwoCalls(t: Seam) {
    && |t.calls| == 2 && t.calls[0].original == Request(5, 0) && t.calls[1].original == Request(5, 1)
    && !t.calls[1].written && t.cancelledIds == {}
  }

  lemma ReuseTaken(t: Seam)
    requires t == Step(EMPTY, Arrives(5, true, None))
    ensures var t' := Step(Step(t, Cancels(5, 0)), Arrives(5, true, None));
            && TwoCalls(t') && t'.sent == [] && t'.tracked == map[5 := 1] && !t'.calls[0].written
            && t'.calls[1] == NewCall(Request(5, 1), true, None, t'.calls[1].numbering)
  {
  }

  lemma ReuseFinishes(t: Seam, first: Final)
    requires TwoCalls(t) && t.sent == [] && t.tracked == map[5 := 1] && !t.calls[0].written
    requires t.calls[1] == NewCall(Request(5, 1), true, None, t.calls[1].numbering)
    ensures var t' := Step(t, HandlerAnswers(0, first));
            && TwoCalls(t') && t'.sent == [FinalOut(Request(5, 1), 1, first, [])] && t'.tracked == map[]
  {
    assert Outcomes([]) == [];
  }

  lemma ReusePasses(t: Seam, second: Final)
    requires TwoCalls(t) && t.tracked == map[]
    ensures Step(t, HandlerAnswers(1, second)).sent == t.sent + [PassedThrough(Request(5, 1), 1, second)]
  {
  }
}
