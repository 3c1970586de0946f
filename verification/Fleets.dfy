/**
 * Several tool sessions over one host in the same process, each under a numbering and a key of its own: none gets
 * another flagged, and once each has delivered what it owes the auditor's list of missing numbers is empty.
 */
module Fleets {
  import opened Records
  import opened Accounting
  import opened Verify
  import opened Hosts
  import opened Chains
  import opened HostInvariants
  import opened HostTidiness
  import opened Persistence
  import opened Tools
  import opened ToolRuns
  import opened ToolNumbering
  import opened ToolSequences
  import opened ToolAccounting

  /** The host is shared: the one a session last saw is not kept. */
  datatype Fleet = Fleet(host: Host, tools: map<SessionId, World>, keys: map<SessionId, KeyId>)

  datatype FleetStep =
    | Joins(session: SessionId, key: KeyId)
    | Moves(session: SessionId, step: ToolStep)
    | Rests(op: Op)

  /** A session as it sees the host now. */
  function View(f: Fleet, s: SessionId): World
    requires s in f.tools
  {
    f.tools[s].(host := f.host)
  }

  function FleetTake(f: Fleet, step: FleetStep): Fleet {
    match step
    case Joins(s, key) =>
      if s in f.host.issued || s in f.tools then f else
        var w := Begin(f.host, s);
        Fleet(w.host, f.tools[s := w], f.keys[s := key])
    case Moves(s, own) =>
      if s !in f.tools || own.Elsewhere? then f else
        var w := Take(View(f, s), own);
        f.(host := w.host, tools := f.tools[s := w])
    case Rests(op) => f.(host := Step(f.host, op))
  }

  function FleetTakeAll(f: Fleet, steps: seq<FleetStep>): Fleet {
    if steps == [] then f else FleetTake(FleetTakeAll(f, steps[..|steps| - 1]), steps[|steps| - 1])
  }

  function FleetBegin(h: Host): Fleet {
    Fleet(h, map[], map[])
  }

  /** What each session may do by itself, and for the rest what seals nothing and ends none of them. */
  ghost predicate FleetAllowed(f: Fleet, step: FleetStep) {
    match step
    case Joins(_, _) => true
    case Moves(s, own) => s in f.tools && s in f.keys ==> Allowed(View(f, s), own) && SignsWith(own, f.keys[s])
    case Rests(op) => op.Open? || op.SetAvailable? || (op.Close? && op.session !in f.tools)
  }

  ghost predicate AllFleetAllowed(f: Fleet, steps: seq<FleetStep>) {
    forall i :: 0 <= i < |steps| ==> FleetAllowed(FleetTakeAll(f, steps[..i]), steps[i])
  }

  // ---------------------------------------------------------------------------------------------------
  // What every step keeps.

  ghost predicate InFleet(f: Fleet, s: SessionId)
    requires s in f.tools && s in f.keys
  {
    f.tools[s].session == s && InSequence(View(f, s), f.keys[s])
  }

  ghost predicate AllOurs(f: Fleet) {
    forall r :: r in f.host.chain ==> r.event.session in f.tools
  }

  ghost predicate FleetOk(f: Fleet) {
    && f.keys.Keys == f.tools.Keys && Clean(f.host) && f.host.config.level.L2?
    && (forall s :: s in f.tools ==> InFleet(f, s))
  }

  /** The call a step of a session is to the host, where it is one. */
  function CallOf(w: World, step: ToolStep): Option<Op> {
    match step
    case Act(_, _, _, _, _, _) =>
      if step.id in w.actions || !step.signs then None
      else Some(Attempt(EventFor(w, step.id, Attempted, None, step.signer, step.body), None, false, step.env))
    case Finish(_, _, _, _, _) =>
      if !Owes(w, step.id) || !step.signs then None else Some(Hosts.Outcome(Some(OwedEvent(w, step)), None, step.env))
    case Elsewhere(op) => Some(op)
  }

  lemma TakeIsCall(w: World, step: ToolStep)
    ensures var call := CallOf(w, step);
            Take(w, step).host == if call.Some? then Step(w.host, call.value) else w.host
  {
  }

  /** To the others the session's call is one of another session. */
  lemma CallIsApart(w: World, step: ToolStep, other: SessionId)
    requires Allowed(w, step) && !step.Elsewhere? && other != w.session
    ensures CallOf(w, step).Some? ==> Apart(CallOf(w, step).value, other)
    ensures CallOf(w, step).Some? ==> forall e :: e in SentBy(CallOf(w, step).value) ==> e.session == w.session
  {
  }

  /** How the host moves under one call that is apart from a session: it stays in sequence. */
  lemma OtherStays(f: Fleet, f': Fleet, s: SessionId, op: Op)
    requires s in f.tools && s in f.keys && InFleet(f, s) && Apart(op, s)
    requires s in f'.tools && s in f'.keys && f'.tools[s] == f.tools[s] && f'.keys[s] == f.keys[s] && f'.host == Step(f.host, op)
    ensures InFleet(f', s)
  {
    ElsewhereStaysInSequence(View(f, s), f.keys[s], op);
    assert View(f', s) == Take(View(f, s), Elsewhere(op));
  }

  /** What one call adds to a clean host's chain comes from the event it brought. */
  lemma CallSeals(h: Host, op: Op)
    requires Clean(h) && Clean(Step(h, op))
    ensures var h' := Step(h, op);
            h'.config == h.config && (h'.chain == h.chain || exists r: Record :: r.event in SentBy(op) && h'.chain == h.chain + [r])
  {
    StepAdds(h, op);
    var h' := Step(h, op);
    assert Whole(h) == h.chain && Whole(h') == h'.chain;
    if h'.chain != h.chain {
      var r :| Made(h.config, r) && r.event in SentBy(op) && h'.chain == h.chain + [r];
    }
  }

  lemma StillOurs(f: Fleet, f': Fleet, op: Op)
    requires AllOurs(f) && f.tools.Keys <= f'.tools.Keys && f'.host == Step(f.host, op) && Clean(f.host) && Clean(f'.host)
    requires forall e :: e in SentBy(op) ==> e.session in f'.tools
    ensures AllOurs(f')
  {
    CallSeals(f.host, op);
  }

  /** The host moved under one call, and all the sessions but one are where they were. */
  lemma FleetMoved(f: Fleet, f': Fleet, s: SessionId, op: Op)
    requires FleetOk(f) && f'.tools.Keys == f.tools.Keys + {s} && f'.keys.Keys == f'.tools.Keys
    requires forall r :: r in f.tools && r != s ==> f'.tools[r] == f.tools[r] && f'.keys[r] == f.keys[r] && Apart(op, r)
    requires f'.host == Step(f.host, op) && Clean(f'.host) && InFleet(f', s)
    ensures FleetOk(f')
  {
    forall r | r in f'.tools
      ensures InFleet(f', r)
    {
      if r != s {
        assert InFleet(f, r);
        OtherStays(f, f', r, op);
      }
    }
    CallSeals(f.host, op);
  }

  lemma JoinMoved(f: Fleet, f': Fleet, s: SessionId, key: KeyId)
    requires FleetOk(f) && s !in f.tools && f'.host == Step(f.host, Open(s)) && Clean(f'.host)
    requires s in f'.tools && f' == Fleet(f'.host, f.tools[s := f'.tools[s]], f.keys[s := key]) && InFleet(f', s)
    ensures FleetOk(f')
  {
    FleetMoved(f, f', s, Open(s));
  }

  lemma JoinKeeps(f: Fleet, s: SessionId, key: KeyId)
    requires FleetOk(f) && s !in f.host.issued && s !in f.tools
    ensures FleetOk(FleetTake(f, Joins(s, key)))
  {
    JoinedInFleet(f, s, key);
    JoinMoved(f, FleetTake(f, Joins(s, key)), s, key);
  }

  lemma JoinedInFleet(f: Fleet, s: SessionId, key: KeyId)
    requires Clean(f.host) && f.host.config.level.L2? && s !in f.host.issued && s !in f.tools
    ensures var f' := FleetTake(f, Joins(s, key)); s in f'.tools && s in f'.keys && InFleet(f', s) && Clean(f'.host)
  {
    BeginsInSequence(f.host, s, key);
    assert View(FleetTake(f, Joins(s, key)), s) == Begin(f.host, s);
  }

  lemma MoveKeeps(f: Fleet, s: SessionId, own: ToolStep)
    requires FleetOk(f) && s in f.tools && !own.Elsewhere? && FleetAllowed(f, Moves(s, own))
    ensures FleetOk(FleetTake(f, Moves(s, own)))
    ensures FleetTake(f, Moves(s, own)).host.anomalies == f.host.anomalies
  {
    var f', w := FleetTake(f, Moves(s, own)), View(f, s);
    assert InFleet(f, s);
    TakeStaysInSequence(w, f.keys[s], own);
    SessionKept(w, own);
    assert View(f', s) == Take(w, own);
    TakeIsCall(w, own);
    CallIsItsOwn(w, own, f.tools.Keys);
    MovedOthers(f, f', s, CallOf(w, own));
  }

  lemma SessionKept(w: World, step: ToolStep)
    ensures Take(w, step).session == w.session
  {
  }

  lemma MovedOthers(f: Fleet, f': Fleet, s: SessionId, call: Option<Op>)
    requires FleetOk(f) && s in f.tools && s in f'.tools && f' == f.(host := f'.host, tools := f.tools[s := f'.tools[s]])
    requires f'.host == (if call.Some? then Step(f.host, call.value) else f.host) && InFleet(f', s)
    requires call.Some? ==> forall r :: r in f.tools && r != s ==> Apart(call.value, r)
    ensures FleetOk(f')
  {
    if call.Some? {
      FleetMoved(f, f', s, call.value);
    } else {
      FleetStood(f, f', s);
    }
  }

  lemma CallIsItsOwn(w: World, step: ToolStep, others: set<SessionId>)
    requires Allowed(w, step) && !step.Elsewhere?
    ensures var call := CallOf(w, step);
            call.Some? ==> (forall r :: r in others && r != w.session ==> Apart(call.value, r))
                           && forall e :: e in SentBy(call.value) ==> e.session == w.session
  {
    forall r | r in others && r != w.session
      ensures CallOf(w, step).Some? ==> Apart(CallOf(w, step).value, r)
    {
      CallIsApart(w, step, r);
    }
    CallIsApart(w, step, w.session + 1);
  }

  lemma FleetStood(f: Fleet, f': Fleet, s: SessionId)
    requires FleetOk(f) && s in f.tools && s in f'.tools && f' == f.(tools := f.tools[s := f'.tools[s]]) && InFleet(f', s)
    ensures FleetOk(f')
  {
    forall r | r in f'.tools
      ensures InFleet(f', r)
    {
      if r != s {
        assert InFleet(f, r);
      }
    }
  }

  lemma RestKeeps(f: Fleet, op: Op)
    requires FleetOk(f) && FleetAllowed(f, Rests(op))
    ensures FleetOk(FleetTake(f, Rests(op)))
  {
    var f' := FleetTake(f, Rests(op));
    RestStaysClean(f.host, op);
    forall r | r in f.tools
      ensures InFleet(f', r)
    {
      assert InFleet(f, r);
      OtherStays(f, f', r, op);
    }
    CallSeals(f.host, op);
  }

  lemma RestStaysClean(h: Host, op: Op)
    requires Clean(h) && (op.Open? || op.SetAvailable? || op.Close?)
    ensures Clean(Step(h, op))
  {
    StepKeeps(h, op);
  }

  lemma FleetStepKeeps(f: Fleet, step: FleetStep)
    requires FleetOk(f) && FleetAllowed(f, step)
    ensures FleetOk(FleetTake(f, step))
    ensures step.Moves? ==> FleetTake(f, step).host.anomalies == f.host.anomalies
  {
    match step
    case Joins(s, key) =>
      if s !in f.host.issued && s !in f.tools {
        JoinKeeps(f, s, key);
      }
    case Moves(s, own) =>
      if s in f.tools && !own.Elsewhere? {
        MoveKeeps(f, s, own);
      }
    case Rests(op) => RestKeeps(f, op);
  }

  lemma FleetAllowedFront(f: Fleet, steps: seq<FleetStep>, n: nat)
    requires AllFleetAllowed(f, steps) && n <= |steps|
    ensures AllFleetAllowed(f, steps[..n])
  {
    assert forall i :: 0 <= i < n ==> steps[..n][..i] == steps[..i];
  }

  lemma {:induction false} FleetKeeps(h: Host, steps: seq<FleetStep>)
    requires Clean(h) && h.config.level.L2? && AllFleetAllowed(FleetBegin(h), steps)
    ensures FleetOk(FleetTakeAll(FleetBegin(h), steps))
  {
    if steps != [] {
      var n := |steps| - 1;
      FleetAllowedFront(FleetBegin(h), steps, n);
      FleetKeeps(h, steps[..n]);
      FleetStepKeeps(FleetTakeAll(FleetBegin(h), steps[..n]), steps[n]);
    }
  }

  lemma MoveStaysOurs(f: Fleet, s: SessionId, own: ToolStep)
    requires FleetOk(f) && AllOurs(f) && s in f.tools && !own.Elsewhere? && FleetAllowed(f, Moves(s, own))
    requires FleetOk(FleetTake(f, Moves(s, own)))
    ensures AllOurs(FleetTake(f, Moves(s, own)))
  {
    var w := View(f, s);
    assert InFleet(f, s);
    TakeIsCall(w, own);
    CallIsItsOwn(w, own, f.tools.Keys);
    if CallOf(w, own).Some? {
      StillOurs(f, FleetTake(f, Moves(s, own)), CallOf(w, own).value);
    }
  }

  lemma JoinShape(f: Fleet, s: SessionId, key: KeyId)
    requires s !in f.host.issued && s !in f.tools
    ensures var f' := FleetTake(f, Joins(s, key)); f'.host == Step(f.host, Open(s)) && f'.tools.Keys == f.tools.Keys + {s}
  {
  }

  lemma JoinStaysOurs(f: Fleet, s: SessionId, key: KeyId)
    requires FleetOk(f) && AllOurs(f) && s !in f.host.issued && s !in f.tools && FleetOk(FleetTake(f, Joins(s, key)))
    ensures AllOurs(FleetTake(f, Joins(s, key)))
  {
    JoinShape(f, s, key);
    StillOurs(f, FleetTake(f, Joins(s, key)), Open(s));
  }

  lemma RestStaysOurs(f: Fleet, op: Op)
    requires FleetOk(f) && AllOurs(f) && FleetAllowed(f, Rests(op)) && FleetOk(FleetTake(f, Rests(op)))
    ensures AllOurs(FleetTake(f, Rests(op)))
  {
    StillOurs(f, FleetTake(f, Rests(op)), op);
  }

  lemma StepStaysOurs(f: Fleet, step: FleetStep)
    requires FleetOk(f) && AllOurs(f) && FleetAllowed(f, step) && FleetOk(FleetTake(f, step))
    ensures AllOurs(FleetTake(f, step))
  {
    match step
    case Joins(s, key) =>
      if s !in f.host.issued && s !in f.tools {
        JoinStaysOurs(f, s, key);
      }
    case Moves(s, own) =>
      if s in f.tools && !own.Elsewhere? {
        MoveStaysOurs(f, s, own);
      }
    case Rests(op) => RestStaysOurs(f, op);
  }

  /** On a ledger that began empty everything sealed is of these sessions. */
  lemma {:induction false} FleetStaysOurs(h: Host, steps: seq<FleetStep>)
    requires Clean(h) && h.config.level.L2? && h.chain == [] && AllFleetAllowed(FleetBegin(h), steps)
    ensures AllOurs(FleetTakeAll(FleetBegin(h), steps))
  {
    if steps != [] {
      var n := |steps| - 1;
      FleetAllowedFront(FleetBegin(h), steps, n);
      FleetStaysOurs(h, steps[..n]);
      FleetKeeps(h, steps[..n]);
      FleetStepKeeps(FleetTakeAll(FleetBegin(h), steps[..n]), steps[n]);
      StepStaysOurs(FleetTakeAll(FleetBegin(h), steps[..n]), steps[n]);
    }
  }

  // ---------------------------------------------------------------------------------------------------
  // The results.

  /** Whatever the sessions interleave, none of their emissions adds an anomaly. */
  lemma FleetIsNotFlagged(h: Host, steps: seq<FleetStep>, i: nat)
    requires Clean(h) && h.config.level.L2? && AllFleetAllowed(FleetBegin(h), steps)
    requires i < |steps| && steps[i].Moves?
    ensures FleetTakeAll(FleetBegin(h), steps[..i + 1]).host.anomalies == FleetTakeAll(FleetBegin(h), steps[..i]).host.anomalies
  {
    FleetAllowedFront(FleetBegin(h), steps, i);
    FleetKeeps(h, steps[..i]);
    assert steps[..i + 1][..i] == steps[..i];
    FleetStepKeeps(FleetTakeAll(FleetBegin(h), steps[..i]), steps[i]);
  }

  /** Every group the auditor forms is the numbering of one of the sessions. */
  lemma GroupsAreSessions(f: Fleet, g: Group)
    requires FleetOk(f) && AllOurs(f) && g in Groups(EventsOf(f.host.chain))
    ensures g.session in f.tools && g.session in f.keys && g.key == f.keys[g.session]
  {
    var events := EventsOf(f.host.chain);
    GroupsAreAll(events, g);
    var i :| 0 <= i < |events| && InGroup(events[i], g);
    assert f.host.chain[i] in f.host.chain;
    assert InFleet(f, g.session);
    var w := View(f, g.session);
    assert SealedInLog(w.log, f.host.chain[i].event);
  }

  ghost predicate AllDelivered(f: Fleet) {
    forall s :: s in f.tools ==> Delivered(f.tools[s].log)
  }

  /**
   * Once every session has delivered what it owes, the auditor finds no number missing in the whole ledger, whatever
   * attempts were not sealed.
   */
  lemma FleetIsAccounted(h: Host, steps: seq<FleetStep>)
    requires Clean(h) && h.config.level.L2? && h.chain == [] && AllFleetAllowed(FleetBegin(h), steps)
    requires AllDelivered(FleetTakeAll(FleetBegin(h), steps))
    ensures Gaps(FleetTakeAll(FleetBegin(h), steps).host.chain) == []
  {
    FleetKeeps(h, steps);
    FleetStaysOurs(h, steps);
    var f := FleetTakeAll(FleetBegin(h), steps);
    var events := EventsOf(f.host.chain);
    forall g | g in Groups(events)
      ensures Left(events, g) == {}
    {
      GroupsAreSessions(f, g);
      assert InFleet(f, g.session);
      DeliveredIsAccounted(View(f, g.session), g.key);
      assert Group(g.key, View(f, g.session).session) == g;
    }
    EmptyReport(events, Groups(events));
  }
}
