/**
 * The host under its lock. Every call is cut at each place it waits for a collaborator, and other calls may run
 * there. The lock lets one call in at a time, in call order, so any interleaving gives the answers and the state of
 * the calls run one after the other.
 */
module Sections {
  import opened Records
  import opened Ledgers
  import opened Hosts

  // ---------------------------------------------------------------------------------------------------
  // The lock: a chain of promises, each caller waiting for the one before its own.

  /** Promise 0 is settled from the start. Caller `i` waits for promise `i` and settles promise `i + 1` when it leaves. */
  class Mutex {
    /** The promise the next caller waits for. */
    var tail: nat
    var settled: set<nat>

    /** Callers leave in the order they came: the promises settled are a first stretch of those made. */
    ghost predicate Valid()
      reads this
    {
      exists left: nat :: left <= tail && SettledUpto(settled, left)
    }

    constructor ()
      ensures Valid() && tail == 0 && settled == {0}
    {
      tail, settled := 0, {0};
      new;
      assert SettledUpto(settled, 0);
    }

    /** Take a place, before anything is waited for. */
    method Claim() returns (earlier: nat)
      requires Valid()
      modifies this`tail
      ensures Valid() && earlier == old(tail) && tail == old(tail) + 1
    {
      ghost var left: nat :| left <= tail && SettledUpto(settled, left);
      earlier := tail;
      tail := tail + 1;
      assert SettledUpto(settled, left);
    }

    /** The section ran, or threw: either way the next caller goes on. */
    method Release(earlier: nat)
      requires Valid() && earlier < tail && MayEnter(settled, earlier)
      modifies this`settled
      ensures Valid() && settled == old(settled) + {earlier + 1}
    {
      ghost var left: nat :| left <= tail && SettledUpto(settled, left);
      settled := settled + {earlier + 1};
      assert SettledUpto(settled, left + 1);
    }
  }

  /** The promises settled are those of the first `left` callers, and the one settled from the start. */
  ghost predicate SettledUpto(settled: set<nat>, left: nat) {
    forall k: nat :: k in settled <==> k <= left
  }

  /** A caller goes in once the promise before its own is settled, and has not left while its own is not. */
  predicate MayEnter(settled: set<nat>, earlier: nat) {
    earlier in settled && earlier + 1 !in settled
  }

  /** Never two callers at once. */
  lemma OneMayEnter(settled: set<nat>, left: nat, a: nat, b: nat)
    requires SettledUpto(settled, left) && MayEnter(settled, a) && MayEnter(settled, b)
    ensures a == b == left
  {
  }

  // ---------------------------------------------------------------------------------------------------
  // A call, cut where it waits.

  datatype Answer = ToAttempt(response: Response) | ToOutcome(disposition: Disposition) | ToClose

  /** Where a call stands: not let in yet, waiting for a collaborator, or answered. */
  datatype Frame =
    | Outside
    | Reading
    | Verifying
    | Signing(plain: Record)
    | Appending(record: Record)
    | Finished(answer: Answer)

  /** The calls that take the lock. */
  predicate Locked(op: Op) {
    op.Attempt? || op.Outcome? || op.Close?
  }

  /** The whole call at once. */
  function Handle(h: Host, op: Op): (Host, Answer)
    requires Locked(op)
  {
    match op
    case Attempt(e, expected, late, env) =>
      var (h', response) := HandleAttempt(h, e, expected, late, env);
      (h', ToAttempt(response))
    case Outcome(item, expected, env) =>
      var (h', disposition) := HandleOutcome(h, item, expected, env);
      (h', ToOutcome(disposition))
    case Close(id) => (CloseSession(h, id), ToClose)
  }

  /** The event a call carries, where it carries one. */
  predicate Carries(op: Op) {
    op.Attempt? || (op.Outcome? && op.item.Some?)
  }

  function EventOf(op: Op): Event
    requires Carries(op)
  {
    if op.Attempt? then op.event else op.item.value
  }

  function EnvOf(op: Op): Env
    requires Carries(op)
  {
    op.env
  }

  predicate InSession(h: Host, op: Op) {
    Carries(op) && EventOf(op).session in h.sessions
  }

  /** What a suspended call relies on when it goes on. */
  predicate Ready(h: Host, op: Op, frame: Frame) {
    match frame
    case Outside => Locked(op)
    case Reading => Carries(op) && h.tailUncertain && h.config.persistent
    case Verifying => InSession(h, op) && h.config.level.L2? && EventOf(op).signer.Some?
    case Signing(plain) => InSession(h, op) && h.config.countersigner.Some?
    case Appending(_) => InSession(h, op) && h.config.persistent
    case Finished(_) => false
  }

  function Failed(op: Op, threw: bool): Answer
    requires Carries(op)
  {
    if op.Attempt? then ToAttempt(if threw then Threw else Unavailable)
    else ToOutcome(if threw then OutcomeThrew else NotRecorded)
  }

  // The stretches between two waits.

  function Enter(h: Host, op: Op): (Host, Frame)
    requires Locked(op)
  {
    if op.Close? then (CloseSession(h, op.session), Finished(ToClose))
    else if op.Attempt? && op.late then (h, Finished(ToAttempt(Unavailable)))
    else if op.Outcome? && op.item.None? then (Flag(h, UNKNOWN_ID, SchemaInvalid), Finished(ToOutcome(Refused)))
    else if h.tailUncertain && h.config.persistent then (h, Reading)
    else Check(h, op)
  }

  function AfterRead(h: Host, op: Op): (Host, Frame)
    requires Carries(op)
  {
    var (settled, known) := SettleTail(h, EnvOf(op).read);
    match known
    case SettleThrew => (settled, Finished(Failed(op, true)))
    case InDoubt => (settled, Finished(Failed(op, false)))
    case Known => Check(settled, op)
  }

  function Refuse(op: Op, code: Code): Answer
    requires Carries(op)
  {
    if op.Attempt? then ToAttempt(Reject(code)) else ToOutcome(Refused)
  }

  function Check(h: Host, op: Op): (Host, Frame)
    requires Carries(op)
  {
    var e := EventOf(op);
    var (admitted, refused) := Admit(h, e, op.expected, op.Attempt?);
    if refused.Some? then (admitted, Finished(Refuse(op, refused.value)))
    else if h.config.level.L2? && e.signer.Some? then (admitted, Verifying)
    else Verified(admitted, op, VerifySignature(admitted, e, EnvOf(op).verdict))
  }

  function Verified(h: Host, op: Op, verified: (Host, Checked)): (Host, Frame)
    requires InSession(h, op) && verified.0.sessions.Keys == h.sessions.Keys
  {
    match verified.1
    case CheckThrew => (verified.0, Finished(Failed(op, true)))
    case Refuses(code) =>
      (if op.Attempt? then verified.0.(rejectedIds := verified.0.rejectedIds + {EventOf(op).id}) else verified.0,
       Finished(Refuse(op, code)))
    case Passed => Decision(verified.0, op)
  }

  /** The event gets as far as being sealed. */
  predicate WouldSeal(h: Host, op: Op)
    requires InSession(h, op)
  {
    var e, s := EventOf(op), h.sessions[EventOf(op).session];
    && h.available && e.id !in s.terminal && !Replayed(h, e)
    && (if op.Attempt? then e.id !in h.sealedAttempts
        else e !in h.sealedEvents && (e.id in s.accepted || e.outcome.Aborted?))
  }

  function Decision(h: Host, op: Op): (Host, Frame)
    requires InSession(h, op)
  {
    var e, env := EventOf(op), EnvOf(op);
    if WouldSeal(h, op) then
      var plain := SealNext(h.chain, e, env.now);
      if h.config.countersigner.Some? then (h, Signing(plain)) else Storing(h, op, plain)
    else if op.Attempt? then
      var (h', response) := SealAttempt(h, e, env);
      (h', Finished(ToAttempt(response)))
    else
      var (h', disposition) := SealOutcome(h, e, env);
      (h', Finished(ToOutcome(disposition)))
  }

  function AfterSign(h: Host, op: Op, plain: Record): (Host, Frame)
    requires InSession(h, op) && h.config.countersigner.Some?
  {
    var signature := EnvOf(op).signature;
    if signature.None? then (h, Finished(Failed(op, false)))
    else Storing(h, op, Countersigned(h, plain, signature.value))
  }

  function Storing(h: Host, op: Op, r: Record): (Host, Frame)
    requires InSession(h, op)
  {
    if h.config.persistent then (h, Appending(r)) else AfterAppend(h, op, r)
  }

  function AfterAppend(h: Host, op: Op, r: Record): (Host, Frame)
    requires InSession(h, op)
  {
    var (h', seal) := Persist(h, r, EnvOf(op).write);
    var (h'', answer) := Sealing(h', op, seal);
    (h'', Finished(answer))
  }

  function Sealing(h: Host, op: Op, seal: Seal): (Host, Answer)
    requires InSession(h, op)
  {
    var e := EventOf(op);
    match seal
    case SealThrew => (h, Failed(op, true))
    case NotSealed => (h, Failed(op, false))
    case SealedAs(r) =>
      if op.Attempt? then (Clear(Decide(h, e), e), ToAttempt(AcceptOf(r)))
      else (Conclude(Decide(h, e), e), ToOutcome(Sealed))
  }

  /** One stretch of a call: from where it stands to its next wait, or to its answer. */
  function Segment(h: Host, op: Op, frame: Frame): (Host, Frame)
    requires Ready(h, op, frame)
  {
    match frame
    case Outside => Enter(h, op)
    case Reading => AfterRead(h, op)
    case Verifying => Verified(h, op, VerifySignature(h, EventOf(op), EnvOf(op).verdict))
    case Signing(plain) => AfterSign(h, op, plain)
    case Appending(r) => AfterAppend(h, op, r)
  }

  // ---------------------------------------------------------------------------------------------------
  // What is left of a call, run without interruption.

  function Decided(h: Host, op: Op): (Host, Answer)
    requires Carries(op)
  {
    if op.Attempt? then
      var (h', response) := DecideAttempt(h, op.event, op.expected, op.env);
      (h', ToAttempt(response))
    else
      var (h', disposition) := DecideOutcome(h, op.item.value, op.expected, op.env);
      (h', ToOutcome(disposition))
  }

  function Admitted(h: Host, op: Op): (Host, Answer)
    requires InSession(h, op)
  {
    if op.Attempt? then
      var (h', response) := AdmittedAttempt(h, op.event, op.env);
      (h', ToAttempt(response))
    else
      var (h', disposition) := AdmittedOutcome(h, op.item.value, op.env);
      (h', ToOutcome(disposition))
  }

  function Stored(h: Host, op: Op, r: Record): (Host, Answer)
    requires InSession(h, op)
  {
    var (h', seal) := Persist(h, r, EnvOf(op).write);
    Sealing(h', op, seal)
  }

  function Remaining(h: Host, op: Op, frame: Frame): (Host, Answer)
    requires Ready(h, op, frame) || frame.Finished?
  {
    match frame
    case Outside => Handle(h, op)
    case Reading =>
      var (settled, known) := SettleTail(h, EnvOf(op).read);
      (match known
       case SettleThrew => (settled, Failed(op, true))
       case InDoubt => (settled, Failed(op, false))
       case Known => Decided(settled, op))
    case Verifying => Admitted(h, op)
    case Signing(plain) =>
      var signature := EnvOf(op).signature;
      if signature.None? then (h, Failed(op, false)) else Stored(h, op, Countersigned(h, plain, signature.value))
    case Appending(r) => Stored(h, op, r)
    case Finished(answer) => (h, answer)
  }

  ghost predicate Leaves(result: (Host, Frame), op: Op, whole: (Host, Answer)) {
    && (Ready(result.0, op, result.1) || result.1.Finished?)
    && Remaining(result.0, op, result.1) == whole
  }

  lemma StoringLeaves(h: Host, op: Op, r: Record)
    requires InSession(h, op)
    ensures Leaves(Storing(h, op, r), op, Stored(h, op, r))
  {
  }

  /** What sealing comes to once the event is to be sealed. */
  function SealedWhole(h: Host, op: Op): (Host, Answer)
    requires InSession(h, op)
  {
    var (h', seal) := SealEvent(h, EventOf(op), EnvOf(op));
    Sealing(h', op, seal)
  }

  lemma DecisionLeaves(h: Host, op: Op)
    requires InSession(h, op) && WouldSeal(h, op)
    ensures Leaves(Decision(h, op), op, SealedWhole(h, op))
  {
    var plain := SealNext(h.chain, EventOf(op), EnvOf(op).now);
    if h.config.countersigner.None? {
      StoringLeaves(h, op, plain);
    }
  }

  function SealWhole(h: Host, op: Op): (Host, Answer)
    requires InSession(h, op)
  {
    if op.Attempt? then
      var (h', response) := SealAttempt(h, op.event, op.env);
      (h', ToAttempt(response))
    else
      var (h', disposition) := SealOutcome(h, op.item.value, op.env);
      (h', ToOutcome(disposition))
  }

  lemma SealsWhenItWould(h: Host, op: Op)
    requires InSession(h, op) && WouldSeal(h, op)
    ensures SealWhole(h, op) == SealedWhole(h, op)
  {
  }

  lemma SealLeaves(h: Host, op: Op)
    requires InSession(h, op)
    ensures Leaves(Decision(h, op), op, SealWhole(h, op))
  {
    if WouldSeal(h, op) {
      DecisionLeaves(h, op);
      SealsWhenItWould(h, op);
    }
  }

  lemma VerifiedLeaves(h: Host, op: Op)
    requires InSession(h, op)
    ensures VerifySignature(h, EventOf(op), EnvOf(op).verdict).0.sessions.Keys == h.sessions.Keys
    ensures Leaves(Verified(h, op, VerifySignature(h, EventOf(op), EnvOf(op).verdict)), op, Admitted(h, op))
  {
    var (verified, checked) := VerifySignature(h, EventOf(op), EnvOf(op).verdict);
    assert verified.sessions.Keys == h.sessions.Keys;
    if checked.Passed? {
      SealLeaves(verified, op);
    }
  }

  lemma CheckLeaves(h: Host, op: Op)
    requires Carries(op)
    ensures Leaves(Check(h, op), op, Decided(h, op))
  {
    var (admitted, refused) := Admit(h, EventOf(op), op.expected, op.Attempt?);
    if refused.None? {
      VerifiedLeaves(admitted, op);
    }
  }

  lemma EnterLeaves(h: Host, op: Op)
    requires Locked(op)
    ensures Leaves(Enter(h, op), op, Handle(h, op))
  {
    if Carries(op) {
      CheckLeaves(h, op);
    }
  }

  lemma ReadLeaves(h: Host, op: Op)
    requires Ready(h, op, Reading)
    ensures Leaves(AfterRead(h, op), op, Remaining(h, op, Reading))
  {
    CheckLeaves(SettleTail(h, EnvOf(op).read).0, op);
  }

  lemma SignLeaves(h: Host, op: Op, plain: Record)
    requires Ready(h, op, Signing(plain))
    ensures Leaves(AfterSign(h, op, plain), op, Remaining(h, op, Signing(plain)))
  {
    if EnvOf(op).signature.Some? {
      StoringLeaves(h, op, Countersigned(h, plain, EnvOf(op).signature.value));
    }
  }

  /** A stretch changes nothing about what the rest of the call comes to. */
  lemma SegmentLeaves(h: Host, op: Op, frame: Frame)
    requires Ready(h, op, frame)
    ensures Leaves(Segment(h, op, frame), op, Remaining(h, op, frame))
  {
    match frame
    case Outside => EnterLeaves(h, op);
    case Reading => ReadLeaves(h, op);
    case Verifying => VerifiedLeaves(h, op);
    case Signing(plain) => SignLeaves(h, op, plain);
    case Appending(_) =>
  }

  // ---------------------------------------------------------------------------------------------------
  // Any number of calls, interleaved.

  datatype Caller = Caller(op: Op, frame: Frame)

  /** The host and everyone who called it, in call order; `settled` are the lock's settled promises. */
  datatype Machine = Machine(host: Host, callers: seq<Caller>, settled: set<nat>)

  datatype Move = CallHost(op: Op) | Proceed(caller: nat)

  function Start(h: Host): Machine {
    Machine(h, [], {0})
  }

  /** Whoever is not answered may go on wherever it stands, and may go in when the lock lets it. */
  function Act(m: Machine, move: Move): Machine {
    match move
    case CallHost(op) => if Locked(op) then m.(callers := m.callers + [Caller(op, Outside)]) else m
    case Proceed(i) =>
      if i >= |m.callers| then m else
        var c := m.callers[i];
        if !Ready(m.host, c.op, c.frame) || (c.frame.Outside? && i !in m.settled) then m else
          var (h', frame') := Segment(m.host, c.op, c.frame);
          Machine(h', m.callers[i := Caller(c.op, frame')], if frame'.Finished? then m.settled + {i + 1} else m.settled)
  }

  function ActAll(m: Machine, moves: seq<Move>): Machine {
    if moves == [] then m else Act(ActAll(m, moves[..|moves| - 1]), moves[|moves| - 1])
  }

  predicate AllLocked(callers: seq<Caller>) {
    forall i :: 0 <= i < |callers| ==> Locked(callers[i].op)
  }

  /** Where the first `n` calls of a sequential run leave the host. */
  function HostAfter(h0: Host, run: seq<(Host, Answer)>, n: nat): Host
    requires n <= |run|
  {
    if n == 0 then h0 else run[n - 1].0
  }

  /** The `i`th call of a sequential run. */
  ghost predicate CallAt(h0: Host, callers: seq<Caller>, run: seq<(Host, Answer)>, i: nat)
    requires i < |run| == |callers|
  {
    Locked(callers[i].op) && run[i] == Handle(HostAfter(h0, run, i), callers[i].op)
  }

  /** `run` is what the calls come to one after the other, in call order. */
  ghost predicate OneByOne(h0: Host, callers: seq<Caller>, run: seq<(Host, Answer)>) {
    && AllLocked(callers) && |run| == |callers|
    && forall i :: 0 <= i < |run| ==> CallAt(h0, callers, run, i)
  }

  /** What is left of the call of the caller inside gives what its call gives in the sequential run. */
  ghost predicate UnderWay(m: Machine, n: nat, whole: (Host, Answer))
    requires n < |m.callers|
  {
    var c := m.callers[n];
    && (Ready(m.host, c.op, c.frame) || c.frame.Finished?)
    && Remaining(m.host, c.op, c.frame) == whole
  }

  /** The callers before `n` are answered as in the sequential run; `n` may be inside; the others wait outside. */
  ghost predicate InOrder(h0: Host, m: Machine, run: seq<(Host, Answer)>, n: nat)
    requires n <= |m.callers| == |run|
  {
    && SettledUpto(m.settled, n)
    && (forall i :: 0 <= i < n ==> m.callers[i].frame == Finished(run[i].1))
    && (forall i :: n < i < |m.callers| ==> m.callers[i].frame.Outside?)
    && (n == |m.callers| || m.callers[n].frame.Outside? ==> m.host == HostAfter(h0, run, n))
    && (n < |m.callers| && !m.callers[n].frame.Outside? ==>
          !m.callers[n].frame.Finished? && UnderWay(m, n, run[n]))
  }

  /** Only the first caller not answered can move. */
  lemma OnlyTheFirstMoves(h0: Host, m: Machine, run: seq<(Host, Answer)>, n: nat, i: nat)
    requires n <= |m.callers| == |run| && InOrder(h0, m, run, n)
    requires i < |m.callers| && !m.callers[i].frame.Finished? && (m.callers[i].frame.Outside? ==> i in m.settled)
    ensures i == n
  {
  }

  /** A stretch leaves the caller inside with less to do, or answered as in the sequential run. */
  lemma StretchKeeps(m: Machine, n: nat, whole: (Host, Answer))
    requires n < |m.callers| && UnderWay(m, n, whole) && !m.callers[n].frame.Finished?
    ensures var c := m.callers[n];
            var (h', frame') := Segment(m.host, c.op, c.frame);
            && !frame'.Outside?
            && UnderWay(Machine(h', m.callers[n := Caller(c.op, frame')], m.settled), n, whole)
            && (frame'.Finished? ==> (h', frame'.answer) == whole)
  {
    var c := m.callers[n];
    SegmentLeaves(m.host, c.op, c.frame);
    SegmentMoves(m.host, c.op, c.frame);
  }

  lemma StayingKeeps(h0: Host, m: Machine, m': Machine, run: seq<(Host, Answer)>, n: nat)
    requires n < |m.callers| == |run| && InOrder(h0, m, run, n)
    requires |m'.callers| == |m.callers| && m' == Machine(m'.host, m.callers[n := m'.callers[n]], m.settled)
    requires !m'.callers[n].frame.Outside? && !m'.callers[n].frame.Finished? && UnderWay(m', n, run[n])
    ensures InOrder(h0, m', run, n)
  {
  }

  lemma LeavingKeeps(h0: Host, m: Machine, m': Machine, run: seq<(Host, Answer)>, n: nat)
    requires n < |m.callers| == |run| && InOrder(h0, m, run, n)
    requires |m'.callers| == |m.callers|
    requires m' == Machine(run[n].0, m.callers[n := m'.callers[n]], m.settled + {n + 1})
    requires m'.callers[n].frame == Finished(run[n].1)
    ensures InOrder(h0, m', run, n + 1)
  {
    assert SettledUpto(m'.settled, n + 1);
  }

  /** The caller about to go in does what its call does in the sequential run. */
  lemma GoesIn(h0: Host, m: Machine, run: seq<(Host, Answer)>, n: nat)
    requires n < |m.callers| && OneByOne(h0, m.callers, run) && InOrder(h0, m, run, n)
    ensures UnderWay(m, n, run[n]) && !m.callers[n].frame.Finished?
  {
    assert CallAt(h0, m.callers, run, n);
  }

  /** After a stretch of the caller inside. */
  function Moved(m: Machine, n: nat, h': Host, frame': Frame): Machine
    requires n < |m.callers|
  {
    Machine(h', m.callers[n := Caller(m.callers[n].op, frame')], if frame'.Finished? then m.settled + {n + 1} else m.settled)
  }

  lemma MovedKeeps(h0: Host, m: Machine, run: seq<(Host, Answer)>, n: nat, h': Host, frame': Frame) returns (n': nat)
    requires n < |m.callers| == |run| && InOrder(h0, m, run, n)
    requires !frame'.Outside?
    requires UnderWay(Machine(h', m.callers[n := Caller(m.callers[n].op, frame')], m.settled), n, run[n])
    requires frame'.Finished? ==> (h', frame'.answer) == run[n]
    ensures n' <= |run| && InOrder(h0, Moved(m, n, h', frame'), run, n')
  {
    if frame'.Finished? {
      LeavingKeeps(h0, m, Moved(m, n, h', frame'), run, n);
      n' := n + 1;
    } else {
      StayingKeeps(h0, m, Moved(m, n, h', frame'), run, n);
      n' := n;
    }
  }

  lemma ProceedMoves(m: Machine, n: nat)
    requires n < |m.callers| && Act(m, Proceed(n)) != m
    ensures var c := m.callers[n];
            && Ready(m.host, c.op, c.frame)
            && (c.frame.Outside? ==> n in m.settled)
            && var (h', frame') := Segment(m.host, c.op, c.frame);
               Act(m, Proceed(n)) == Moved(m, n, h', frame')
  {
  }

  lemma ProceedKeeps(h0: Host, m: Machine, run: seq<(Host, Answer)>, n: nat, i: nat) returns (n': nat)
    requires n <= |m.callers| && OneByOne(h0, m.callers, run) && InOrder(h0, m, run, n)
    ensures SameCalls(m.callers, Act(m, Proceed(i)).callers)
    ensures n' <= |run| && InOrder(h0, Act(m, Proceed(i)), run, n')
  {
    n' := n;
    if Act(m, Proceed(i)) != m {
      ProceedMoves(m, i);
      OnlyTheFirstMoves(h0, m, run, n, i);
      GoesIn(h0, m, run, n);
      StretchKeeps(m, n, run[n]);
      var (h', frame') := Segment(m.host, m.callers[n].op, m.callers[n].frame);
      n' := MovedKeeps(h0, m, run, n, h', frame');
    }
  }

  /** The same calls, however far each of them is. */
  ghost predicate SameCalls(a: seq<Caller>, b: seq<Caller>) {
    |a| == |b| && forall k :: 0 <= k < |a| ==> a[k].op == b[k].op
  }

  lemma SameRun(h0: Host, a: seq<Caller>, b: seq<Caller>, run: seq<(Host, Answer)>)
    requires SameCalls(a, b) && OneByOne(h0, a, run)
    ensures OneByOne(h0, b, run)
  {
    forall i | 0 <= i < |run|
      ensures CallAt(h0, b, run, i)
    {
      SameCallAt(h0, a, run, b, run, i);
    }
  }

  lemma OneMore(h0: Host, callers: seq<Caller>, run: seq<(Host, Answer)>, op: Op) returns (longer: seq<(Host, Answer)>)
    requires OneByOne(h0, callers, run) && Locked(op)
    ensures OneByOne(h0, callers + [Caller(op, Outside)], longer)
    ensures |longer| == |run| + 1 && longer[..|run|] == run
  {
    var last := Handle(HostAfter(h0, run, |run|), op);
    longer := run + [last];
    Lengthened(h0, callers, run, op, last);
  }

  lemma Lengthened(h0: Host, callers: seq<Caller>, run: seq<(Host, Answer)>, op: Op, last: (Host, Answer))
    requires OneByOne(h0, callers, run) && Locked(op) && last == Handle(HostAfter(h0, run, |run|), op)
    ensures OneByOne(h0, callers + [Caller(op, Outside)], run + [last])
  {
    var longer, more := run + [last], callers + [Caller(op, Outside)];
    forall i | 0 <= i < |run|
      ensures CallAt(h0, more, longer, i)
    {
      SameCallAt(h0, callers, run, more, longer, i);
    }
    assert HostAfter(h0, longer, |run|) == HostAfter(h0, run, |run|);
    assert CallAt(h0, more, longer, |run|);
  }

  lemma SameCallAt(h0: Host, a: seq<Caller>, run: seq<(Host, Answer)>, b: seq<Caller>, longer: seq<(Host, Answer)>, i: nat)
    requires i < |run| == |a| && |longer| == |b| && run <= longer && CallAt(h0, a, run, i)
    requires i < |b| && b[i].op == a[i].op
    ensures CallAt(h0, b, longer, i)
  {
    assert longer[i] == run[i] && (i > 0 ==> longer[i - 1] == run[i - 1]);
  }

  lemma CallKeeps(h0: Host, m: Machine, run: seq<(Host, Answer)>, longer: seq<(Host, Answer)>, n: nat, op: Op)
    requires n <= |m.callers| == |run| && InOrder(h0, m, run, n)
    requires |longer| == |run| + 1 && longer[..|run|] == run
    ensures InOrder(h0, m.(callers := m.callers + [Caller(op, Outside)]), longer, n)
  {
    assert forall i :: 0 <= i < |run| ==> longer[i] == run[i];
    assert HostAfter(h0, longer, n) == HostAfter(h0, run, n);
  }

  /** At every moment there is a sequential run the calls are on their way to, and one place they have got to. */
  lemma {:induction false} AlwaysOrdered(h: Host, moves: seq<Move>) returns (run: seq<(Host, Answer)>, n: nat)
    ensures var m := ActAll(Start(h), moves);
            OneByOne(h, m.callers, run) && n <= |m.callers| && InOrder(h, m, run, n)
  {
    if moves == [] {
      run, n := [], 0;
      assert SettledUpto({0}, 0);
    } else {
      var front := moves[..|moves| - 1];
      run, n := AlwaysOrdered(h, front);
      var m := ActAll(Start(h), front);
      match moves[|moves| - 1]
      case CallHost(op) =>
        if Locked(op) {
          var longer := OneMore(h, m.callers, run, op);
          CallKeeps(h, m, run, longer, n, op);
          run := longer;
        }
      case Proceed(i) =>
        n := ProceedKeeps(h, m, run, n, i);
        SameRun(h, m.callers, Act(m, Proceed(i)).callers, run);
    }
  }

  /** Sections never overlap, and callers go in in call order. */
  lemma SectionsNeverOverlap(h: Host, moves: seq<Move>, i: nat, j: nat)
    requires var m := ActAll(Start(h), moves); i < j < |m.callers| && !m.callers[j].frame.Outside?
    ensures ActAll(Start(h), moves).callers[i].frame.Finished?
  {
    var run, n := AlwaysOrdered(h, moves);
    InOrderExcludes(h, ActAll(Start(h), moves), run, n, i, j);
  }

  lemma InOrderExcludes(h: Host, m: Machine, run: seq<(Host, Answer)>, n: nat, i: nat, j: nat)
    requires n <= |m.callers| == |run| && InOrder(h, m, run, n)
    requires i < j < |m.callers| && !m.callers[j].frame.Outside?
    ensures m.callers[i].frame.Finished?
  {
  }

  /**
   * However calls interleave, once everyone is answered the host is where the calls one after the other in call
   * order leave it, and everyone is answered as then.
   */
  lemma InterleavingIsSequential(h: Host, moves: seq<Move>)
    requires forall i :: 0 <= i < |ActAll(Start(h), moves).callers| ==> ActAll(Start(h), moves).callers[i].frame.Finished?
    ensures var m := ActAll(Start(h), moves);
            exists run: seq<(Host, Answer)> :: OneByOne(h, m.callers, run) && m.host == HostAfter(h, run, |run|)
                          && forall i :: 0 <= i < |run| ==> m.callers[i].frame == Finished(run[i].1)
  {
    var run, n := AlwaysOrdered(h, moves);
    AllAnswered(h, ActAll(Start(h), moves), run, n);
  }

  lemma AllAnswered(h: Host, m: Machine, run: seq<(Host, Answer)>, n: nat)
    requires n <= |m.callers| == |run| && InOrder(h, m, run, n)
    requires forall i :: 0 <= i < |m.callers| ==> m.callers[i].frame.Finished?
    ensures m.host == HostAfter(h, run, |run|)
    ensures forall i :: 0 <= i < |run| ==> m.callers[i].frame == Finished(run[i].1)
  {
  }

  /** Nobody gets stuck: while a caller is not answered, the first of them can go on. A section that throws lets go. */
  lemma SomeoneCanProceed(h: Host, moves: seq<Move>, i: nat) returns (n: nat)
    requires var m := ActAll(Start(h), moves); i < |m.callers| && !m.callers[i].frame.Finished?
    ensures var m := ActAll(Start(h), moves);
            n <= i && Rank(m.callers[n].frame) > 0 && |Act(m, Proceed(n)).callers| == |m.callers|
            && Rank(Act(m, Proceed(n)).callers[n].frame) < Rank(m.callers[n].frame)
  {
    var m := ActAll(Start(h), moves);
    var run;
    run, n := AlwaysOrdered(h, moves);
    FirstUnanswered(h, m, run, n, i);
    GoesIn(h, m, run, n);
    SegmentMoves(m.host, m.callers[n].op, m.callers[n].frame);
  }

  lemma FirstUnanswered(h: Host, m: Machine, run: seq<(Host, Answer)>, n: nat, i: nat)
    requires n <= |m.callers| == |run| && InOrder(h, m, run, n)
    requires i < |m.callers| && !m.callers[i].frame.Finished?
    ensures n <= i && n in m.settled
  {
  }

  function Rank(frame: Frame): nat {
    match frame
    case Outside => 5
    case Reading => 4
    case Verifying => 3
    case Signing(_) => 2
    case Appending(_) => 1
    case Finished(_) => 0
  }

  /** Every stretch takes a call nearer to its answer, so each waits at most four times. */
  lemma SegmentMoves(h: Host, op: Op, frame: Frame)
    requires Ready(h, op, frame)
    ensures Rank(Segment(h, op, frame).1) < Rank(frame)
  {
  }

  // ---------------------------------------------------------------------------------------------------
  // Why the lock is there.

  /** An attempt a host would seal, countersigning it on the way. */
  predicate Sealable(h: Host, op: Op) {
    && op.Attempt? && !op.late && op.expected.None? && op.env.signature.Some?
    && Valid(op.event) && op.event.canonicalizable && op.event.outcome.Attempted?
    && InSession(h, op) && WouldSeal(h, op)
    && h.config.level.L1? && h.config.countersigner.Some? && !h.config.persistent
  }

  /** Let in at once, two attempts take the same place in the chain, and both are accepted. */
  lemma WithoutTheLock(h: Host, a: Op, b: Op)
    requires Sealable(h, a) && Sealable(h, b)
    ensures var (h1, fa) := Segment(h, a, Outside);
            var (h2, fb) := Segment(h1, b, Outside);
            && h2 == h && fa.Signing? && fb.Signing?
            && var (h3, ga) := Segment(h2, a, fa);
               InSession(h3, b) &&
               var (h4, gb) := Segment(h3, b, fb);
               && ga.Finished? && ga.answer.ToAttempt? && ga.answer.response.Accept?
               && gb.Finished? && gb.answer.ToAttempt? && gb.answer.response.Accept?
               && ga.answer.response.position == gb.answer.response.position
               && |h4.chain| == |h.chain| + 2
               && h4.chain[|h.chain|].position == h4.chain[|h.chain| + 1].position
  {
    CountersignsFirst(h, a);
    CountersignsFirst(h, b);
    var plainA, plainB := SealNext(h.chain, a.event, a.env.now), SealNext(h.chain, b.event, b.env.now);
    CommitsWithoutLooking(h, a, plainA);
    CommitsWithoutLooking(AfterSign(h, a, plainA).0, b, plainB);
  }

  lemma CountersignsFirst(h: Host, op: Op)
    requires Sealable(h, op)
    ensures Segment(h, op, Outside) == (h, Signing(SealNext(h.chain, op.event, op.env.now)))
  {
  }

  /** Once it has waited for the countersignature, a call commits the record it made before. */
  lemma CommitsWithoutLooking(h: Host, op: Op, plain: Record)
    requires InSession(h, op) && op.Attempt? && op.env.signature.Some?
    requires h.config.countersigner.Some? && !h.config.persistent
    ensures var (h', frame) := AfterSign(h, op, plain);
            && frame.Finished? && frame.answer.ToAttempt?
            && frame.answer.response.Accept? && frame.answer.response.position == plain.position
            && h'.config == h.config && h'.sessions.Keys == h.sessions.Keys
            && exists r :: h'.chain == h.chain + [r] && r.position == plain.position
  {
    var r := Countersigned(h, plain, op.env.signature.value);
    assert AfterSign(h, op, plain).0.chain == h.chain + [r];
  }
}
