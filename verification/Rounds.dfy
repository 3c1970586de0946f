/**
 * The host's side of a round: its events, processed in array order under one deadline, and what the deadline
 * cut off, finished later in the session's queue.
 */
module Rounds {
  import opened Records

  /** An item of a round: an attempt that can be answered, or anything else, which is handed on to be recorded. */
  datatype Item = Answerable(id: Id, body: nat) | Other(body: nat)

  /** How the wait for one item ended: it was done first, done as the deadline passed, or the deadline came first. */
  datatype Race = Won | WonThenExpired | Lost

  datatype Answer = Decision(text: nat) | AnsweredUnavailable

  /** What the endpoint is handed: an attempt to decide or an item to record. */
  datatype Handed = ToDecide(item: Item) | ToRecord(item: Item)

  /** The work a deadline cut off: an item being recorded when it passed, and the items to record after it. */
  datatype Rest = Rest(inProgress: Option<Item>, outcomes: seq<Item>)

  /** Everything in a list that is not an answerable attempt, in order. */
  function Others(items: seq<Item>): seq<Item> {
    if items == [] then [] else
      var before, last := Others(items[..|items| - 1]), items[|items| - 1];
      if last.Other? then before + [last] else before
  }

  /** What an endpoint was handed to record. */
  function Recorded(handed: seq<Handed>): seq<Item> {
    if handed == [] then [] else
      var before, last := Recorded(handed[..|handed| - 1]), handed[|handed| - 1];
      if last.ToRecord? then before + [last.item] else before
  }

  /** What the endpoint is handed for items reached before the deadline. */
  function HandedFor(items: seq<Item>, decide: bool): seq<Handed> {
    if items == [] then [] else
      var before, last := HandedFor(items[..|items| - 1], decide), items[|items| - 1];
      if last.Other? then before + [ToRecord(last)] else if decide then before + [ToDecide(last)] else before
  }

  /** An item the endpoint is not handed is not waited for. */
  predicate Waits(item: Item, decide: bool) {
    item.Other? || decide
  }

  /** How many items are reached: the first whose wait meets the deadline is the last. */
  function Reached(events: seq<Item>, races: seq<Race>, decide: bool, from: nat): (n: nat)
    requires |races| == |events| && from <= |events|
    ensures from <= n <= |events|
    ensures forall i :: from <= i < n - 1 && Waits(events[i], decide) ==> races[i].Won?
    decreases |events| - from
  {
    if from == |events| then from
    else if Waits(events[from], decide) && !races[from].Won? then from + 1
    else Reached(events, races, decide, from + 1)
  }

  predicate Expired(events: seq<Item>, races: seq<Race>, decide: bool)
    requires |races| == |events|
  {
    exists i :: 0 <= i < |events| && Waits(events[i], decide) && !races[i].Won?
  }

  /** The last item that asks an answer under an id; a later one overwrites an earlier one's. */
  function LastAsking(events: seq<Item>, id: Id): Option<nat> {
    if events == [] then None
    else if events[|events| - 1].Answerable? && events[|events| - 1].id == id then Some(|events| - 1)
    else LastAsking(events[..|events| - 1], id)
  }

  /** The answer an attempt gets: the endpoint's where it came in time, and `unavailable` otherwise. */
  function AnswerAt(answers: seq<Answer>, races: seq<Race>, reached: nat, i: nat): Answer
    requires i < |answers| == |races|
  {
    if i < reached && !races[i].Lost? then answers[i] else AnsweredUnavailable
  }

  /** The responses to the first `n` items once `reached` of them all were processed in time. */
  ghost predicate Responds(responses: map<Id, Answer>, events: seq<Item>, answers: seq<Answer>, races: seq<Race>,
                           reached: nat, n: nat)
    requires |events| == |answers| == |races| && n <= |events|
  {
    forall id :: match LastAsking(events[..n], id)
                 case None => id !in responses
                 case Some(i) => i < n && id in responses && responses[id] == AnswerAt(answers, races, reached, i)
  }

  predicate AsksAt(events: seq<Item>, i: int, id: Id) {
    0 <= i < |events| && events[i].Answerable? && events[i].id == id
  }

  lemma {:induction false} LastAskingIsLast(events: seq<Item>, id: Id)
    ensures match LastAsking(events, id)
            case None => forall i :: !AsksAt(events, i, id)
            case Some(i) => AsksAt(events, i, id) && forall j :: AsksAt(events, j, id) ==> j <= i
  {
    if events != [] {
      var front := events[..|events| - 1];
      LastAskingIsLast(front, id);
      assert forall i :: 0 <= i < |front| ==> (AsksAt(events, i, id) <==> AsksAt(front, i, id));
      assert AsksAt(events, |front|, id) <==> LastAsking(events, id) == Some(|front|);
    }
  }

  /** The ids asked about are answered and no others, each as the last attempt that asks about it is. */
  ghost predicate LastAnswers(responses: map<Id, Answer>, events: seq<Item>, answers: seq<Answer>, races: seq<Race>,
                              reached: nat)
    requires |events| == |answers| == |races|
  {
    && (forall id :: id in responses ==> exists i :: AsksAt(events, i, id))
    && (forall i, id :: AsksAt(events, i, id) && (forall j :: AsksAt(events, j, id) ==> j <= i) ==>
          id in responses && responses[id] == AnswerAt(answers, races, reached, i))
  }

  lemma RespondsAsLast(responses: map<Id, Answer>, events: seq<Item>, answers: seq<Answer>, races: seq<Race>, reached: nat)
    requires |events| == |answers| == |races| && Responds(responses, events, answers, races, reached, |events|)
    ensures LastAnswers(responses, events, answers, races, reached)
  {
    assert events[..|events|] == events;
    forall id | id in responses
      ensures exists i :: AsksAt(events, i, id)
    {
      LastAskingIsLast(events, id);
    }
    forall i, id | AsksAt(events, i, id) && (forall j :: AsksAt(events, j, id) ==> j <= i)
      ensures id in responses && responses[id] == AnswerAt(answers, races, reached, i)
    {
      LastAskingIsLast(events, id);
    }
  }

  lemma {:induction false} OthersConcat(a: seq<Item>, b: seq<Item>)
    ensures Others(a + b) == Others(a) + Others(b)
  {
    if b == [] {
      assert a + b == a;
    } else {
      var front := b[..|b| - 1];
      OthersConcat(a, front);
      assert (a + b)[..|a + b| - 1] == a + front;
    }
  }

  lemma {:induction false} HandedAreOthers(items: seq<Item>, decide: bool)
    ensures Recorded(HandedFor(items, decide)) == Others(items)
  {
    if items != [] {
      var front, last := items[..|items| - 1], items[|items| - 1];
      HandedAreOthers(front, decide);
      var before := HandedFor(front, decide);
      assert (before + [ToRecord(last)])[..|before|] == before;
      assert (before + [ToDecide(last)])[..|before|] == before;
    }
  }

  /** The item being recorded when the deadline passed, if it was an item being recorded. */
  function InProgress(events: seq<Item>, races: seq<Race>, reached: nat): Option<Item>
    requires |races| == |events| && 0 < reached <= |events|
  {
    if events[reached - 1].Other? && races[reached - 1].Lost? then Some(events[reached - 1]) else None
  }

  /**
   * Process a round. `races` says how each wait would end and `answers` what the endpoint would answer; `handed` is
   * what the endpoint was given while the round was processed.
   */
  method ProcessRound(events: seq<Item>, decide: bool, races: seq<Race>, answers: seq<Answer>)
    returns (responses: map<Id, Answer>, rest: Option<Rest>, handed: seq<Handed>)
    requires |events| == |races| == |answers|
    ensures handed == HandedFor(events[..Reached(events, races, decide, 0)], decide)
    ensures rest.Some? <==> Expired(events, races, decide)
    ensures Recorded(handed) + (if rest.Some? then rest.value.outcomes else []) == Others(events)
    ensures rest.Some? ==> Reached(events, races, decide, 0) > 0 &&
                           rest.value.inProgress == InProgress(events, races, Reached(events, races, decide, 0))
    ensures decide ==> LastAnswers(responses, events, answers, races, Reached(events, races, decide, 0))
    ensures !decide ==> responses == map[] && forall x :: x in handed ==> x.ToRecord?
  {
    var expired, inProgress, index;
    responses, handed, expired, inProgress, index := UntilDeadline(events, decide, races, answers);
    HandedAreOthers(events[..index], decide);
    OthersSplit(events, index);
    if !expired {
      if decide {
        RespondsAsLast(responses, events, answers, races, index);
      }
      return responses, None, handed;
    }
    var outcomes;
    responses, outcomes := AnswerRemaining(events, index, decide, races, answers, responses);
    if decide {
      RespondsAsLast(responses, events, answers, races, index);
    }
    rest := Some(Rest(inProgress, outcomes));
  }

  lemma OthersSplit(events: seq<Item>, index: nat)
    requires index <= |events|
    ensures Others(events) == Others(events[..index]) + Others(events[index..])
  {
    assert events == events[..index] + events[index..];
    OthersConcat(events[..index], events[index..]);
  }

  /** Each item in turn, until one is waited for past the deadline. */
  method UntilDeadline(events: seq<Item>, decide: bool, races: seq<Race>, answers: seq<Answer>)
    returns (responses: map<Id, Answer>, handed: seq<Handed>, expired: bool, inProgress: Option<Item>, index: nat)
    requires |events| == |races| == |answers|
    ensures index == Reached(events, races, decide, 0)
    ensures expired <==> Expired(events, races, decide)
    ensures !expired ==> index == |events|
    ensures expired ==> index > 0 && inProgress == InProgress(events, races, index)
    ensures handed == HandedFor(events[..index], decide)
    ensures decide ==> Responds(responses, events, answers, races, index, index)
    ensures !decide ==> responses == map[] && forall x :: x in handed ==> x.ToRecord?
  {
    ghost var reached := Reached(events, races, decide, 0);
    responses, handed := map[], [];
    expired, inProgress, index := false, None, 0;
    while index < |events| && !expired
      invariant 0 <= index <= |events|
      invariant reached == if expired then index else Reached(events, races, decide, index)
      invariant expired ==> index > 0 && Waits(events[index - 1], decide) && !races[index - 1].Won?
      invariant if expired then inProgress == InProgress(events, races, index) else inProgress.None?
      invariant !expired ==> forall i :: 0 <= i < index && Waits(events[i], decide) ==> races[i].Won?
      invariant handed == HandedFor(events[..index], decide)
      invariant decide ==> Responds(responses, events, answers, races, reached, index)
      invariant !decide ==> responses == map[] && forall x :: x in handed ==> x.ToRecord?
      decreases |events| - index
    {
      var event, race := events[index], races[index];
      assert events[..index + 1][..index] == events[..index];
      ghost var before := responses;
      if event.Answerable? {
        if decide {
          handed := handed + [ToDecide(event)];
          responses := responses[event.id := if race.Lost? then AnsweredUnavailable else answers[index]];
          expired := !race.Won?;
        }
      } else {
        handed := handed + [ToRecord(event)];
        expired := !race.Won?;
        inProgress := if race.Lost? then Some(event) else None;
      }
      if decide {
        RespondsNext(before, responses, events, answers, races, reached, index);
      }
      index := index + 1;
    }
  }

  lemma RespondsNext(before: map<Id, Answer>, responses: map<Id, Answer>, events: seq<Item>, answers: seq<Answer>,
                     races: seq<Race>, reached: nat, i: nat)
    requires |events| == |answers| == |races| && i < |events|
    requires Responds(before, events, answers, races, reached, i)
    requires responses == if events[i].Answerable? then before[events[i].id := AnswerAt(answers, races, reached, i)] else before
    ensures Responds(responses, events, answers, races, reached, i + 1)
  {
    assert events[..i + 1][..i] == events[..i];
  }

  /** What follows the deadline: the attempts are answered `unavailable`, and the rest is put aside in order. */
  method AnswerRemaining(events: seq<Item>, index: nat, decide: bool, ghost races: seq<Race>, ghost answers: seq<Answer>,
                         before: map<Id, Answer>)
    returns (responses: map<Id, Answer>, outcomes: seq<Item>)
    requires |events| == |races| == |answers| && index <= |events|
    requires decide ==> Responds(before, events, answers, races, index, index)
    ensures outcomes == Others(events[index..])
    ensures decide ==> Responds(responses, events, answers, races, index, |events|)
    ensures !decide ==> responses == before
  {
    responses, outcomes := before, [];
    for i := index to |events|
      invariant outcomes == Others(events[index..i])
      invariant decide ==> Responds(responses, events, answers, races, index, i)
      invariant !decide ==> responses == before
    {
      var event := events[i];
      assert events[index..i + 1][..i - index] == events[index..i];
      assert events[..i + 1][..i] == events[..i];
      if event.Answerable? {
        if decide {
          responses := responses[event.id := AnsweredUnavailable];
        }
      } else {
        outcomes := outcomes + [event];
      }
    }
    assert events[index..|events|] == events[index..] && events[..|events|] == events;
  }

  // ---------------------------------------------------------------------------------------------------
  // The session's queue, over all the rounds of a call.

  /** A round the tool answered with, and how its processing met the deadline. */
  datatype Round = Round(events: seq<Item>, races: seq<Race>, decide: bool)

  predicate WellRaced(r: Round) {
    |r.races| == |r.events|
  }

  datatype Job = Follow(round: Round) | Finish(outcomes: seq<Item>)

  /**
   * One call at the host: the jobs queued for its session, what was handed on to be recorded, and everything that
   * arrived. `awaiting` is that an id is out with the tool.
   */
  datatype Receiver = Receiver(queue: seq<Job>, recorded: seq<Item>, arrived: seq<Item>, awaiting: bool)

  const OPENED := Receiver([], [], [], true)

  datatype Step = ToolAnswers(round: Round) | NextJob

  function InTime(r: Round): seq<Item>
    requires WellRaced(r)
  {
    Others(r.events[..Reached(r.events, r.races, r.decide, 0)])
  }

  function CutOff(r: Round): seq<Item>
    requires WellRaced(r)
  {
    Others(r.events[Reached(r.events, r.races, r.decide, 0)..])
  }

  /** What the deadline cut off is queued before the retry goes, so before anything the retry's answer brings. */
  function Take(q: Receiver, step: Step): Receiver {
    match step
    case ToolAnswers(round) =>
      if !q.awaiting || !WellRaced(round) then q
      else q.(queue := q.queue + [Follow(round)], arrived := q.arrived + Others(round.events), awaiting := false)
    case NextJob =>
      if q.queue == [] then q
      else
        match q.queue[0]
        case Finish(outcomes) => q.(queue := q.queue[1..], recorded := q.recorded + outcomes)
        case Follow(round) =>
          if !WellRaced(round) then q.(queue := q.queue[1..])
          else q.(queue := q.queue[1..] + [Finish(CutOff(round))], recorded := q.recorded + InTime(round), awaiting := true)
  }

  function TakeAll(q: Receiver, steps: seq<Step>): Receiver {
    if steps == [] then q else Take(TakeAll(q, steps[..|steps| - 1]), steps[|steps| - 1])
  }

  function OutcomesOf(job: Job): seq<Item> {
    match job
    case Finish(outcomes) => outcomes
    case Follow(round) => Others(round.events)
  }

  function Waiting(queue: seq<Job>): seq<Item> {
    if queue == [] then [] else OutcomesOf(queue[0]) + Waiting(queue[1..])
  }

  lemma {:induction false} WaitingConcat(queue: seq<Job>, job: Job)
    ensures Waiting(queue + [job]) == Waiting(queue) + OutcomesOf(job)
  {
    if queue == [] {
      assert queue + [job] == [job];
      assert Waiting([job]) == OutcomesOf(job) + Waiting([]);
    } else {
      var first, rest := OutcomesOf(queue[0]), queue[1..];
      WaitingConcat(rest, job);
      assert (queue + [job])[1..] == rest + [job] && (queue + [job])[0] == queue[0];
      assert first + (Waiting(rest) + OutcomesOf(job)) == (first + Waiting(rest)) + OutcomesOf(job);
    }
  }

  /** A round is followed only while nothing but earlier leftovers is queued. */
  ghost predicate QueueOk(q: Receiver) {
    && (forall i :: 0 <= i < |q.queue| && q.queue[i].Follow? ==> i == |q.queue| - 1 && !q.awaiting)
    && (forall i :: 0 <= i < |q.queue| && q.queue[i].Follow? ==> WellRaced(q.queue[i].round))
    && q.recorded + Waiting(q.queue) == q.arrived
  }

  lemma RoundSplits(r: Round)
    requires WellRaced(r)
    ensures InTime(r) + CutOff(r) == Others(r.events)
  {
    var n := Reached(r.events, r.races, r.decide, 0);
    assert r.events == r.events[..n] + r.events[n..];
    OthersConcat(r.events[..n], r.events[n..]);
  }

  lemma TakeKeeps(q: Receiver, step: Step)
    requires QueueOk(q)
    ensures QueueOk(Take(q, step))
  {
    match step
    case ToolAnswers(round) =>
      WaitingConcat(q.queue, Follow(round));
    case NextJob =>
      if q.queue != [] && q.queue[0].Follow? {
        var round := q.queue[0].round;
        RoundSplits(round);
        assert q.queue[1..] == [];
        WaitingConcat([], Finish(CutOff(round)));
      }
  }

  lemma {:induction false} AllKept(steps: seq<Step>)
    ensures QueueOk(TakeAll(OPENED, steps))
  {
    if steps != [] {
      AllKept(steps[..|steps| - 1]);
      TakeKeeps(TakeAll(OPENED, steps[..|steps| - 1]), steps[|steps| - 1]);
    }
  }

  /**
   * However the rounds of a call meet their deadlines and however their jobs are interleaved with the tool's
   * answers, what arrived to be recorded is recorded in the order it arrived in, once each: at any time all of it
   * but what is still queued, and all of it once the queue is empty.
   */
  lemma RecordedInOrder(steps: seq<Step>)
    ensures var q := TakeAll(OPENED, steps); q.recorded <= q.arrived && (q.queue == [] ==> q.recorded == q.arrived)
  {
    AllKept(steps);
  }
}
