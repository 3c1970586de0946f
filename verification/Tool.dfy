/**
 * The tool's side of one audit session: actions that are audited before they run, numbered by one sequence, over
 * a host in the same process.
 */
module Tools {
  import opened Records
  import opened Hosts

  // ---------------------------------------------------------------------------------------------------
  // One audited operation.

  datatype Mark = MarkSuccess | MarkFailed

  /** What a list of marks comes to: the first success stands unless a failure is marked, and a failure stands. */
  function Marked(marks: seq<Mark>): Option<Mark> {
    if marks == [] then None
    else if marks[|marks| - 1].MarkFailed? then Some(MarkFailed)
    else if Marked(marks[..|marks| - 1]).None? then Some(MarkSuccess)
    else Marked(marks[..|marks| - 1])
  }

  /** The terminal outcome of an operation disposed of with these marks. */
  function TerminalOutcome(marks: seq<Mark>): Outcome {
    if Marked(marks) == Some(MarkSuccess) then Success else Failed
  }

  /** Success is recorded only of an operation marked so and never marked failed; forgetting to mark is a failure. */
  lemma {:induction false} SuccessIsMarked(marks: seq<Mark>)
    ensures TerminalOutcome(marks).Success? <==> MarkSuccess in marks && MarkFailed !in marks
    ensures Marked(marks).None? <==> marks == []
  {
    if marks != [] {
      var front, last := marks[..|marks| - 1], marks[|marks| - 1];
      SuccessIsMarked(front);
      assert forall m :: m in marks <==> m in front || m == last;
    }
  }

  lemma OneMark(marks: seq<Mark>, mark: Mark)
    ensures Marked(marks + [mark]) ==
              if mark.MarkFailed? then Some(MarkFailed) else if Marked(marks).None? then Some(MarkSuccess) else Marked(marks)
  {
  }

  class AuditedAction {
    const id: Id
    var outcome: Option<Mark>
    var finished: bool
    /** The outcomes disposing of the action emitted. */
    var emitted: seq<Outcome>
    ghost var marks: seq<Mark>

    ghost predicate Valid()
      reads this
    {
      && (!finished ==> outcome == Marked(marks) && emitted == [])
      && (finished ==> emitted == [TerminalOutcome(marks)])
    }

    constructor (id: Id)
      ensures Valid() && this.id == id && marks == [] && !finished
    {
      this.id := id;
      outcome, finished, emitted, marks := None, false, [], [];
    }

    method Succeeded()
      requires Valid()
      modifies this
      ensures Valid() && finished == old(finished) && emitted == old(emitted)
      ensures marks == if finished then old(marks) else old(marks) + [MarkSuccess]
    {
      OneMark(marks, MarkSuccess);
      if outcome.None? {
        outcome := Some(MarkSuccess);
      }
      marks := if finished then marks else marks + [MarkSuccess];
    }

    method Failed()
      requires Valid()
      modifies this
      ensures Valid() && finished == old(finished) && emitted == old(emitted)
      ensures marks == if finished then old(marks) else old(marks) + [MarkFailed]
    {
      OneMark(marks, MarkFailed);
      outcome := Some(MarkFailed);
      marks := if finished then marks else marks + [MarkFailed];
    }

    /** However often it is disposed of, one terminal outcome is emitted: that of the marks made before the first. */
    method Dispose()
      requires Valid()
      modifies this
      ensures Valid() && finished && marks == old(marks)
      ensures emitted == [TerminalOutcome(old(marks))]
    {
      if finished {
        return;
      }
      finished := true;
      emitted := emitted + [if outcome == Some(MarkSuccess) then Success else Outcome.Failed];
    }
  }

  /** How the wrapped handler ended, and the marks it made itself. */
  datatype Handler = Returned(own: seq<Mark>) | Raised(own: seq<Mark>)

  method MarkAll(action: AuditedAction, own: seq<Mark>)
    requires action.Valid() && !action.finished && action.marks == []
    modifies action
    ensures action.Valid() && !action.finished && action.marks == own
  {
    for i := 0 to |own|
      invariant action.Valid() && !action.finished && action.marks == own[..i]
    {
      assert own[..i] + [own[i]] == own[..i + 1];
      if own[i].MarkSuccess? {
        action.Succeeded();
      } else {
        action.Failed();
      }
    }
    assert own[..|own|] == own;
  }

  // ---------------------------------------------------------------------------------------------------
  // Every action of one session, interleaved with whatever else uses the host.

  /**
   * Where an action stands: its attempt could not be built; it was refused and has to say it aborted; its body may
   * run; or it is over, with its terminal outcome sent unless that could not be built. `ran` is that its body ran, and
   * `marks` what it was marked.
   */
  datatype Stage =
    | NeverSent
    | MustAbort(reason: AbortReason)
    | Running
    | Over(outcome: Outcome, sent: bool, ran: bool, marks: seq<Mark>)

  /** An action, and the key its session signs under, where it signs. */
  datatype Action = Action(signer: Option<KeyId>, stage: Stage)

  /** A numbered event that was emitted, and whether the host sealed it. */
  datatype Emission = Emission(event: Event, sealed: bool)

  /** `next` is the numbering's next value, `log` the events that took a number, and `sends` every event sent. */
  datatype World = World(
    host: Host,
    session: SessionId,
    next: int,
    log: seq<Emission>,
    sends: seq<Event>,
    actions: map<Id, Action>)

  datatype ToolStep =
    | Act(id: Id, signer: Option<KeyId>, body: nat, env: Env, signs: bool, judged: Option<AbortReason>)
    | Finish(id: Id, body: nat, env: Env, signs: bool, marks: seq<Mark>)
    | Elsewhere(op: Op)

  function EventFor(w: World, id: Id, outcome: Outcome, reason: Option<AbortReason>, signer: Option<KeyId>, body: nat): Event {
    Event(id, w.session, outcome, reason, if signer.None? then None else Some(Signer(signer.value, w.next)), true, true, body)
  }

  /** What the tool makes of the host's answer; `judged` is what it finds wrong with an accept. */
  function StageAfter(response: Response, judged: Option<AbortReason>): Stage {
    match response
    case Accept(_, _, _, _, _) => if judged.None? then Running else MustAbort(judged.value)
    case Reject(_) => MustAbort(HostRejected)
    case Unavailable => MustAbort(HostUnavailable)
    case Threw => MustAbort(HostUnavailable)
  }

  /** A send that returned takes its number, where it has one. */
  function Counted(w: World, e: Event, sealed: bool): World {
    if e.signer.None? then w else w.(next := e.signer.value.number + 1, log := w.log + [Emission(e, sealed)])
  }

  /** The attempt reaches the host, and is answered. */
  function SendAttempt(w: World, step: ToolStep, e: Event): World
    requires step.Act?
  {
    var (h', response) := HandleAttempt(w.host, e, None, false, step.env);
    Counted(w.(host := h', sends := w.sends + [e],
               actions := w.actions[step.id := Action(step.signer, StageAfter(response, step.judged))]), e, response.Accept?)
  }

  function TakeAction(w: World, step: ToolStep): World
    requires step.Act?
  {
    if step.id in w.actions then w
    else if !step.signs then w.(actions := w.actions[step.id := Action(step.signer, NeverSent)])
    else SendAttempt(w, step, EventFor(w, step.id, Attempted, None, step.signer, step.body))
  }

  predicate Owes(w: World, id: Id) {
    id in w.actions && (w.actions[id].stage.MustAbort? || w.actions[id].stage.Running?)
  }

  /** The outcome an action still owes: what it aborted for, or what its marks say. */
  function OwedOutcome(stage: Stage, marks: seq<Mark>): (Outcome, Option<AbortReason>)
    requires stage.MustAbort? || stage.Running?
  {
    if stage.MustAbort? then (Aborted, Some(stage.reason)) else (TerminalOutcome(marks), None)
  }

  function OwedEvent(w: World, step: ToolStep): Event
    requires step.Finish? && Owes(w, step.id)
  {
    var (outcome, reason) := OwedOutcome(w.actions[step.id].stage, step.marks);
    EventFor(w, step.id, outcome, reason, w.actions[step.id].signer, step.body)
  }

  /** The action is over, with what it owed sent or not. */
  function Ended(w: World, step: ToolStep): World
    requires step.Finish? && Owes(w, step.id)
  {
    var action := w.actions[step.id];
    var ran := action.stage.Running?;
    var over := Over(OwedOutcome(action.stage, step.marks).0, step.signs, ran, if ran then step.marks else []);
    w.(actions := w.actions[step.id := action.(stage := over)])
  }

  /** The terminal outcome reaches the host. One that throws takes no number. */
  function SendOutcome(w: World, step: ToolStep, e: Event): World
    requires step.Finish? && Owes(w, step.id)
  {
    var (h', disposition) := HandleOutcome(w.host, Some(e), None, step.env);
    var sent := Ended(w, step).(host := h', sends := w.sends + [e]);
    if disposition.OutcomeThrew? then sent else Counted(sent, e, disposition.Sealed?)
  }

  function FinishAction(w: World, step: ToolStep): World
    requires step.Finish?
  {
    if !Owes(w, step.id) then w
    else if !step.signs then Ended(w, step)
    else SendOutcome(w, step, OwedEvent(w, step))
  }

  function Take(w: World, step: ToolStep): World {
    match step
    case Act(_, _, _, _, _, _) => TakeAction(w, step)
    case Finish(_, _, _, _, _) => FinishAction(w, step)
    case Elsewhere(op) => w.(host := Step(w.host, op))
  }

  function TakeAll(w: World, steps: seq<ToolStep>): World {
    if steps == [] then w else Take(TakeAll(w, steps[..|steps| - 1]), steps[|steps| - 1])
  }

  /** The host with the session just opened, and nothing emitted. */
  function Begin(h: Host, session: SessionId): World {
    World(OpenSession(h, session).0, session, 0, [], [], map[])
  }

  /** The outcomes sent of one operation, in order. */
  function OutcomesOf(sends: seq<Event>, id: Id): seq<Outcome> {
    if sends == [] then [] else
      var front, last := OutcomesOf(sends[..|sends| - 1], id), sends[|sends| - 1];
      if last.id == id then front + [last.outcome] else front
  }

  lemma OutcomesWith(sends: seq<Event>, e: Event, id: Id)
    ensures OutcomesOf(sends + [e], id) == OutcomesOf(sends, id) + if e.id == id then [e.outcome] else []
  {
  }

  // ---------------------------------------------------------------------------------------------------
  // A handler inside an audited action.

  /** The handler runs, the action is marked as it ended, and is disposed of. */
  method RunHandler(id: Id, handler: Handler) returns (marks: seq<Mark>)
    ensures TerminalOutcome(marks) == if handler.Returned? && MarkFailed !in handler.own then Success else Outcome.Failed
  {
    var action := new AuditedAction(id);
    MarkAll(action, handler.own);
    if handler.Returned? {
      action.Succeeded();
    } else {
      action.Failed();
    }
    marks := handler.own + [if handler.Returned? then MarkSuccess else MarkFailed];
    SuccessIsMarked(marks);
    assert action.marks == marks;
    action.Dispose();
    assert action.emitted == [TerminalOutcome(marks)];
  }

  lemma AttemptSends(w: World, act: ToolStep)
    requires act.Act? && act.id !in w.actions
    ensures var w' := TakeAction(w, act);
            && act.id in w'.actions && !w'.actions[act.id].stage.Over? && (w'.actions[act.id].stage.NeverSent? <==> !act.signs)
            && OutcomesOf(w'.sends, act.id) == OutcomesOf(w.sends, act.id) + if act.signs then [Attempted] else []
  {
  }

  lemma FinishSends(w: World, finish: ToolStep)
    requires finish.Finish?
    ensures OutcomesOf(FinishAction(w, finish).sends, finish.id) ==
              OutcomesOf(w.sends, finish.id)
              + if Owes(w, finish.id) && finish.signs then [OwedOutcome(w.actions[finish.id].stage, finish.marks).0] else []
  {
  }

  predicate Accepted(w: World, act: ToolStep)
    requires act.Act?
  {
    && act.signs && act.judged.None?
    && HandleAttempt(w.host, EventFor(w, act.id, Attempted, None, act.signer, act.body), None, false, act.env).1.Accept?
  }

  lemma AcceptedRuns(w: World, act: ToolStep)
    requires act.Act? && act.id !in w.actions
    ensures act.id in TakeAction(w, act).actions
    ensures TakeAction(w, act).actions[act.id].stage.Running? <==> Accepted(w, act)
  {
  }

  /** What an operation sends over its attempt and its end. */
  function SentBetween(ran: bool, act: ToolStep, finish: ToolStep): seq<Outcome>
    requires act.Act? && finish.Finish?
  {
    if !act.signs then [] else if !finish.signs then [Attempted]
    else [Attempted, if ran then TerminalOutcome(finish.marks) else Aborted]
  }

  lemma AuditedSends(w: World, act: ToolStep, finish: ToolStep)
    requires act.Act? && act.id !in w.actions && finish.Finish? && finish.id == act.id
    ensures act.id in TakeAction(w, act).actions
    ensures var ran := TakeAction(w, act).actions[act.id].stage.Running?;
            OutcomesOf(FinishAction(TakeAction(w, act), finish).sends, act.id) ==
              OutcomesOf(w.sends, act.id) + SentBetween(ran, act, finish)
  {
    AttemptSends(w, act);
    FinishSends(TakeAction(w, act), finish);
  }

  /**
   * Run a handler inside an audited action that starts as `act` says; `built` is that the terminal outcome can be
   * built. The handler runs only where the attempt was accepted and nothing was found wrong with the accept; and the
   * operation sends its attempt and then one outcome, that of how the handler ended or an abort.
   */
  method WithAudit(w: World, act: ToolStep, body: nat, env: Env, built: bool, handler: Handler)
    returns (w': World, marks: seq<Mark>, ran: bool, threw: bool)
    requires act.Act? && act.id !in w.actions
    ensures ran <==> Accepted(w, act)
    ensures threw <==> !ran || handler.Raised?
    ensures w' == TakeAll(w, [act, Finish(act.id, body, env, built, marks)])
    ensures ran ==> (TerminalOutcome(marks).Success? <==> handler.Returned? && MarkFailed !in handler.own)
    ensures OutcomesOf(w'.sends, act.id) ==
              OutcomesOf(w.sends, act.id) + SentBetween(ran, act, Finish(act.id, body, env, built, marks))
  {
    var attempted := Take(w, act);
    AcceptedRuns(w, act);
    ran := attempted.actions[act.id].stage.Running?;
    threw := !ran || handler.Raised?;
    marks := [];
    if ran {
      marks := RunHandler(act.id, handler);
    }
    var finish := Finish(act.id, body, env, built, marks);
    w' := Take(attempted, finish);
    AuditedSends(w, act, finish);
    TwoSteps(w, act, finish);
  }

  lemma TwoSteps(w: World, first: ToolStep, second: ToolStep)
    ensures TakeAll(w, [first, second]) == Take(Take(w, first), second)
  {
    assert [first, second][..1] == [first] && [first][..0] == [];
    assert TakeAll(w, [first]) == Take(TakeAll(w, [first][..0]), first);
  }
}
