/**
 * The numbering's section. An emission is cut at its waits: for its turn, for its event to be built and signed, and for
 * the send to return. Signed emissions share one lock and one next number, which advances only when a send returned;
 * unsigned ones take neither. However they interleave, the outcome is that of taking each whole, the signed ones in the
 * order they asked.
 */
module ToolTurns {
  import opened Records
  import opened Ordering
  import opened Hosts
  import opened Tools

  /** Where an emission stands: waiting to be let in, being built under the number it was given, being sent, or done. */
  datatype Frame = Queued | Building(number: Option<int>) | Sending(event: Event) | Left

  /** An emission asked for; `signed` is that its session signs. */
  datatype Turn = Turn(step: ToolStep, signed: bool, frame: Frame)

  /**
   * `turns` are the emissions in the order they were asked for. `left` lists those that are done, and `done` every step
   * that is, those of the rest of the host included; both are in the order things were done.
   */
  datatype Desk = Desk(world: World, turns: seq<Turn>, left: seq<nat>, done: seq<ToolStep>)

  function Opened(w: World): Desk {
    Desk(w, [], [], [])
  }

  predicate Pending(t: Turn) {
    !t.frame.Left?
  }

  predicate Inside(t: Turn) {
    t.frame.Building? || t.frame.Sending?
  }

  predicate Signs(w: World, step: ToolStep) {
    if step.Act? then step.signer.Some?
    else step.Finish? && step.id in w.actions && w.actions[step.id].signer.Some?
  }

  function Names(step: ToolStep): Option<Id> {
    if step.Elsewhere? then None else Some(step.id)
  }

  /** An action emits its attempt once, and its outcome once it owes one and only once. */
  predicate MayAsk(d: Desk, step: ToolStep) {
    && !step.Elsewhere?
    && (if step.Act? then step.id !in d.world.actions else Owes(d.world, step.id))
    && forall k :: 0 <= k < |d.turns| && Pending(d.turns[k]) ==> Names(d.turns[k].step) != Names(step)
  }

  /** The lock is first come, first served: whoever asked before has left. */
  predicate MayEnter(d: Desk, k: nat)
    requires k < |d.turns|
  {
    d.turns[k].signed ==> forall j :: 0 <= j < k && d.turns[j].signed ==> d.turns[j].frame.Left?
  }

  /** The event an emission builds under the number it was given. */
  function BuiltEvent(w: World, step: ToolStep, number: Option<int>): Event
    requires !step.Elsewhere? && (step.Finish? ==> Owes(w, step.id))
  {
    var (outcome, reason) := if step.Act? then (Attempted, None) else OwedOutcome(w.actions[step.id].stage, step.marks);
    var key := if step.Act? then step.signer else w.actions[step.id].signer;
    Event(step.id, w.session, outcome, reason,
          if key.None? || number.None? then None else Some(Signer(key.value, number.value)), true, true, step.body)
  }

  function Moved(d: Desk, k: nat, frame: Frame): Desk
    requires k < |d.turns|
  {
    d.(turns := d.turns[k := d.turns[k].(frame := frame)])
  }

  /** The emission is done and has left the world so. */
  function Leaving(d: Desk, k: nat, w: World): Desk
    requires k < |d.turns|
  {
    Moved(d, k, Left).(world := w, left := d.left + [k], done := d.done + [d.turns[k].step])
  }

  /** What is left of an emission whose event could not be built: no number is taken. */
  function Unbuilt(w: World, step: ToolStep): World
    requires !step.Elsewhere? && (step.Finish? ==> Owes(w, step.id))
  {
    if step.Act? then w.(actions := w.actions[step.id := Action(step.signer, NeverSent)]) else Ended(w, step)
  }

  predicate Possible(w: World, step: ToolStep) {
    !step.Elsewhere? && (step.Finish? ==> Owes(w, step.id))
  }

  /** One stretch of an emission, up to its next wait. */
  function Proceed(d: Desk, k: nat): Desk
    requires k < |d.turns|
  {
    var t := d.turns[k];
    if !Possible(d.world, t.step) then d else
      match t.frame
      case Queued => if MayEnter(d, k) then Moved(d, k, Building(if t.signed then Some(d.world.next) else None)) else d
      case Building(number) =>
        if t.step.signs then Moved(d, k, Sending(BuiltEvent(d.world, t.step, number)))
        else Leaving(d, k, Unbuilt(d.world, t.step))
      case Sending(e) =>
        Leaving(d, k, if t.step.Act? then SendAttempt(d.world, t.step, e) else SendOutcome(d.world, t.step, e))
      case Left => d
  }

  datatype Move = Asks(step: ToolStep) | Proceeds(turn: nat) | Others(op: Op)

  function Next(d: Desk, move: Move): Desk {
    match move
    case Asks(step) => if MayAsk(d, step) then d.(turns := d.turns + [Turn(step, Signs(d.world, step), Queued)]) else d
    case Proceeds(k) => if k < |d.turns| then Proceed(d, k) else d
    case Others(op) => d.(world := Take(d.world, Elsewhere(op)), done := d.done + [Elsewhere(op)])
  }

  function Interleaved(d: Desk, moves: seq<Move>): Desk {
    if moves == [] then d else Next(Interleaved(d, moves[..|moves| - 1]), moves[|moves| - 1])
  }

  // ---------------------------------------------------------------------------------------------------
  // What every move keeps.

  /** An emission not done yet can still be taken whole, and what it has computed so far is what that would compute. */
  ghost predicate TurnOk(w: World, t: Turn) {
    Pending(t) ==>
      && Possible(w, t.step) && (t.step.Act? ==> t.step.id !in w.actions) && t.signed == Signs(w, t.step)
      && (t.frame.Building? ==> t.frame.number == if t.signed then Some(w.next) else None)
      && (t.frame.Sending? ==> t.step.signs && t.frame.event == BuiltEvent(w, t.step, if t.signed then Some(w.next) else None))
  }

  ghost predicate TurnsOk(w: World, turns: seq<Turn>) {
    forall k :: 0 <= k < |turns| ==> TurnOk(w, turns[k])
  }

  /** One emission of an operation is pending at a time. */
  ghost predicate Apart(turns: seq<Turn>) {
    forall j, k :: 0 <= j < k < |turns| && Pending(turns[j]) && Pending(turns[k]) ==> Names(turns[j].step) != Names(turns[k].step)
  }

  /** Whoever has been let in, everyone who asked for the lock before has left. */
  ghost predicate InTurn(turns: seq<Turn>) {
    forall j, k :: 0 <= j < k < |turns| && turns[j].signed && turns[k].signed && !turns[k].frame.Queued? ==> turns[j].frame.Left?
  }

  /** The signed emissions were done in the order they asked, each once. */
  ghost predicate ClaimOrder(turns: seq<Turn>, left: seq<nat>) {
    && (forall i :: 0 <= i < |left| ==> left[i] < |turns| && turns[left[i]].frame.Left?)
    && (forall k :: 0 <= k < |turns| && turns[k].frame.Left? ==> k in left)
    && NoRepeats(left)
    && (forall i, j :: 0 <= i < j < |left| && turns[left[i]].signed && turns[left[j]].signed ==> left[i] < left[j])
  }

  /** The steps done that were emissions. */
  function Own(done: seq<ToolStep>): seq<ToolStep> {
    if done == [] then [] else
      var front, last := Own(done[..|done| - 1]), done[|done| - 1];
      if last.Elsewhere? then front else front + [last]
  }

  function StepsOf(turns: seq<Turn>, left: seq<nat>): (steps: seq<ToolStep>)
    requires forall i :: 0 <= i < |left| ==> left[i] < |turns|
  {
    seq(|left|, i requires 0 <= i < |left| => turns[left[i]].step)
  }

  ghost predicate DeskOk(w0: World, d: Desk) {
    && d.world == TakeAll(w0, d.done)
    && TurnsOk(d.world, d.turns) && Apart(d.turns) && InTurn(d.turns)
    && ClaimOrder(d.turns, d.left) && Own(d.done) == StepsOf(d.turns, d.left)
  }

  lemma DoneOne(w0: World, done: seq<ToolStep>, step: ToolStep)
    ensures TakeAll(w0, done + [step]) == Take(TakeAll(w0, done), step)
    ensures Own(done + [step]) == Own(done) + if step.Elsewhere? then [] else [step]
  {
    assert (done + [step])[..|done|] == done;
  }

  // ---------------------------------------------------------------------------------------------------
  // One emission, taken whole from where it stands.

  lemma BuiltIsTaken(w: World, step: ToolStep)
    requires Possible(w, step)
    ensures var e := BuiltEvent(w, step, if Signs(w, step) then Some(w.next) else None);
            e == if step.Act? then EventFor(w, step.id, Attempted, None, step.signer, step.body) else OwedEvent(w, step)
  {
  }

  lemma UnbuiltIsTaken(w: World, step: ToolStep)
    requires Possible(w, step) && (step.Act? ==> step.id !in w.actions) && !step.signs
    ensures Unbuilt(w, step) == Take(w, step)
  {
  }

  lemma SentIsTaken(w: World, step: ToolStep, e: Event)
    requires Possible(w, step) && (step.Act? ==> step.id !in w.actions) && step.signs
    requires e == if step.Act? then EventFor(w, step.id, Attempted, None, step.signer, step.body) else OwedEvent(w, step)
    ensures (if step.Act? then SendAttempt(w, step, e) else SendOutcome(w, step, e)) == Take(w, step)
  {
  }

  /** What one whole emission leaves to the others: their actions, and the number unless it was signed itself. */
  ghost predicate Aside(w: World, w': World, id: Id, signed: bool) {
    && w'.session == w.session && (!signed ==> w'.next == w.next)
    && (forall x :: x != id ==> (x in w'.actions <==> x in w.actions))
    && (forall x :: x != id && x in w.actions ==> x in w'.actions && w'.actions[x] == w.actions[x])
  }

  lemma ActAside(w: World, step: ToolStep)
    requires step.Act?
    ensures Aside(w, Take(w, step), step.id, Signs(w, step))
  {
  }

  lemma FinishAside(w: World, step: ToolStep)
    requires step.Finish? && Owes(w, step.id)
    ensures Aside(w, Take(w, step), step.id, Signs(w, step))
  {
  }

  lemma OtherTurnStays(w: World, w': World, t: Turn, id: Id, signed: bool)
    requires TurnOk(w, t) && Aside(w, w', id, signed) && (Pending(t) ==> Names(t.step) != Some(id))
    requires signed && t.signed ==> !Inside(t)
    ensures TurnOk(w', t)
  {
  }

  // ---------------------------------------------------------------------------------------------------
  // Each move.

  lemma AskKeeps(w0: World, d: Desk, step: ToolStep)
    requires DeskOk(w0, d) && MayAsk(d, step)
    ensures DeskOk(w0, Next(d, Asks(step)))
  {
    var d' := Next(d, Asks(step));
    assert forall k :: 0 <= k < |d.turns| ==> d'.turns[k] == d.turns[k];
    forall k | 0 <= k < |d'.turns|
      ensures TurnOk(d'.world, d'.turns[k])
    {
      assert k < |d.turns| ==> TurnOk(d.world, d.turns[k]);
    }
    assert StepsOf(d'.turns, d'.left) == StepsOf(d.turns, d.left);
  }

  /** A turn moves on, and is not done. */
  lemma MovedKeeps(w0: World, d: Desk, k: nat, frame: Frame)
    requires DeskOk(w0, d) && k < |d.turns| && Pending(d.turns[k]) && !frame.Left?
    requires TurnOk(d.world, d.turns[k].(frame := frame)) && MayEnter(d, k)
    ensures DeskOk(w0, Moved(d, k, frame))
  {
    var d' := Moved(d, k, frame);
    forall j | 0 <= j < |d'.turns|
      ensures TurnOk(d'.world, d'.turns[j])
    {
      assert TurnOk(d.world, d.turns[j]);
    }
    assert StepsOf(d'.turns, d'.left) == StepsOf(d.turns, d.left);
  }

  lemma LeavingOrder(turns: seq<Turn>, left: seq<nat>, k: nat)
    requires ClaimOrder(turns, left) && InTurn(turns) && k < |turns| && Inside(turns[k])
    ensures var turns' := turns[k := turns[k].(frame := Left)];
            ClaimOrder(turns', left + [k]) && InTurn(turns') && StepsOf(turns', left + [k]) == StepsOf(turns, left) + [turns[k].step]
  {
    var turns' := turns[k := turns[k].(frame := Left)];
    assert forall x :: x in left + [k] <==> x in left || x == k;
    forall i | 0 <= i < |left|
      ensures left[i] != k && (turns[left[i]].signed && turns[k].signed ==> left[i] < k)
    {
      assert turns[left[i]].frame.Left?;
    }
  }

  lemma LeavingKeeps(w0: World, d: Desk, k: nat, w: World)
    requires DeskOk(w0, d) && k < |d.turns| && Inside(d.turns[k])
    requires w == Take(d.world, d.turns[k].step) && !d.turns[k].step.Elsewhere?
    ensures DeskOk(w0, Leaving(d, k, w))
  {
    var d', t := Leaving(d, k, w), d.turns[k];
    DoneOne(w0, d.done, t.step);
    LeavingOrder(d.turns, d.left, k);
    LeavingTurns(d, k, w);
  }

  lemma LeavingTurns(d: Desk, k: nat, w: World)
    requires TurnsOk(d.world, d.turns) && Apart(d.turns) && InTurn(d.turns) && k < |d.turns| && Inside(d.turns[k])
    requires w == Take(d.world, d.turns[k].step)
    ensures TurnsOk(w, Leaving(d, k, w).turns) && Apart(Leaving(d, k, w).turns)
  {
    var d', t := Leaving(d, k, w), d.turns[k];
    assert TurnOk(d.world, t);
    if t.step.Act? {
      ActAside(d.world, t.step);
    } else {
      FinishAside(d.world, t.step);
    }
    forall j | 0 <= j < |d'.turns|
      ensures TurnOk(w, d'.turns[j])
    {
      if j != k {
        assert TurnOk(d.world, d.turns[j]);
        OtherTurnStays(d.world, w, d.turns[j], t.step.id, t.signed);
      }
    }
  }

  lemma ProceedKeeps(w0: World, d: Desk, k: nat)
    requires DeskOk(w0, d) && k < |d.turns|
    ensures DeskOk(w0, Proceed(d, k))
  {
    var t := d.turns[k];
    assert TurnOk(d.world, t);
    match t.frame
    case Queued =>
      if MayEnter(d, k) {
        MovedKeeps(w0, d, k, Building(if t.signed then Some(d.world.next) else None));
      }
    case Building(number) =>
      if t.step.signs {
        MovedKeeps(w0, d, k, Sending(BuiltEvent(d.world, t.step, number)));
      } else {
        UnbuiltIsTaken(d.world, t.step);
        LeavingKeeps(w0, d, k, Unbuilt(d.world, t.step));
      }
    case Sending(e) =>
      BuiltIsTaken(d.world, t.step);
      SentIsTaken(d.world, t.step, e);
      LeavingKeeps(w0, d, k, Take(d.world, t.step));
    case Left =>
  }

  /** What the rest of the host does leaves a session's side as it was. */
  lemma TurnStaysAcross(w: World, w': World, t: Turn)
    requires TurnOk(w, t) && w' == w.(host := w'.host)
    ensures TurnOk(w', t)
  {
  }

  lemma OthersAside(w0: World, d: Desk, d': Desk)
    requires DeskOk(w0, d) && d' == d.(world := d'.world, done := d'.done)
    requires TurnsOk(d'.world, d.turns) && d'.world == TakeAll(w0, d'.done) && Own(d'.done) == Own(d.done)
    ensures DeskOk(w0, d')
  {
  }

  lemma OthersKeep(w0: World, d: Desk, op: Op)
    requires DeskOk(w0, d)
    ensures DeskOk(w0, Next(d, Others(op)))
  {
    var d', op' := Next(d, Others(op)), Elsewhere(op);
    DoneOne(w0, d.done, op');
    forall k | 0 <= k < |d'.turns|
      ensures TurnOk(d'.world, d'.turns[k])
    {
      TurnStaysAcross(d.world, d'.world, d.turns[k]);
    }
    OthersAside(w0, d, d');
  }

  lemma {:induction false} AlwaysOk(w: World, moves: seq<Move>)
    ensures DeskOk(w, Interleaved(Opened(w), moves))
  {
    if moves != [] {
      var front, last := moves[..|moves| - 1], moves[|moves| - 1];
      AlwaysOk(w, front);
      var d := Interleaved(Opened(w), front);
      match last
      case Asks(step) =>
        if MayAsk(d, step) {
          AskKeeps(w, d, step);
        }
      case Proceeds(k) =>
        if k < |d.turns| {
          ProceedKeeps(w, d, k);
        }
      case Others(op) => OthersKeep(w, d, op);
    }
  }

  /**
   * However the emissions of a session interleave at their waits, with each other and with the rest of the host, the
   * world is what taking each of them whole makes it; they are taken as they were done, and the signed ones were done
   * in the order they asked.
   */
  lemma EmissionsAreSequential(w: World, moves: seq<Move>)
    ensures var d := Interleaved(Opened(w), moves);
            && d.world == TakeAll(w, d.done)
            && ClaimOrder(d.turns, d.left) && Own(d.done) == StepsOf(d.turns, d.left)
  {
    AlwaysOk(w, moves);
  }

  /** At most one signed emission is inside, and it holds the next number, which nobody else is given meanwhile. */
  lemma OneIsInside(w: World, moves: seq<Move>, j: nat, k: nat)
    requires var d := Interleaved(Opened(w), moves); j < |d.turns| && k < |d.turns|
    requires var d := Interleaved(Opened(w), moves);
             d.turns[j].signed && d.turns[k].signed && Inside(d.turns[j]) && Inside(d.turns[k])
    ensures j == k
    ensures var d := Interleaved(Opened(w), moves);
            && (d.turns[j].frame.Building? ==> d.turns[j].frame.number == Some(d.world.next))
            && (d.turns[j].frame.Sending? ==> d.turns[j].frame.event.signer.Some?
                                              && d.turns[j].frame.event.signer.value.number == d.world.next)
  {
    AlwaysOk(w, moves);
    var d := Interleaved(Opened(w), moves);
    assert TurnOk(d.world, d.turns[j]);
  }

  /** Nobody waits for ever on the lock: the first signed emission still pending may always proceed. */
  lemma SomeoneMayProceed(w: World, moves: seq<Move>, k: nat)
    requires k < |Interleaved(Opened(w), moves).turns| && Pending(Interleaved(Opened(w), moves).turns[k])
    requires forall j :: 0 <= j < k && Interleaved(Opened(w), moves).turns[j].signed ==>
               !Pending(Interleaved(Opened(w), moves).turns[j])
    ensures var d := Interleaved(Opened(w), moves);
            Proceed(d, k).turns[k].frame != d.turns[k].frame
  {
    AlwaysOk(w, moves);
    var d := Interleaved(Opened(w), moves);
    assert TurnOk(d.world, d.turns[k]);
  }
}
