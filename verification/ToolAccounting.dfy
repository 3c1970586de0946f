/** What a tool's own refusals account for: a session that delivered its outcomes leaves no number unaccounted. */
module ToolAccounting {
  import opened Records
  import opened Ordering
  import opened Accounting
  import opened Verify
  import opened Hosts
  import opened Chains
  import opened HostInvariants
  import opened Tools
  import opened ToolRuns
  import opened ToolNumbering
  import opened ToolSequences

  /** Give every missing value a refusal above it, different ones to different values: that is an assignment. */
  lemma {:induction false} PlacesOf(refuses: map<nat, nat>, refusals: seq<nat>) returns (a: map<nat, nat>)
    requires Injective(refuses)
    requires forall v :: v in refuses ==> refuses[v] in refusals && v < refuses[v]
    ensures Assignment(a, refuses.Keys, refusals, 0) && a.Values == refuses.Keys
    ensures forall p :: p in a ==> a[p] in refuses && p < |refusals| && refusals[p] == refuses[a[p]]
    decreases |refuses.Keys|
  {
    if refuses.Keys == {} {
      a := map[];
    } else {
      var v :| v in refuses;
      var fewer := refuses - {v};
      assert fewer.Keys == refuses.Keys - {v};
      var rest := PlacesOf(fewer, refusals);
      var p: nat :| p < |refusals| && refusals[p] == refuses[v];
      a := rest[p := v];
      OnePlaceMore(refuses, refusals, rest, p, v);
    }
  }

  lemma OnePlaceMore(refuses: map<nat, nat>, refusals: seq<nat>, rest: map<nat, nat>, p: nat, v: nat)
    requires Injective(refuses) && v in refuses && v < refuses[v] && p < |refusals| && refusals[p] == refuses[v]
    requires Assignment(rest, refuses.Keys - {v}, refusals, 0) && rest.Values == refuses.Keys - {v}
    requires forall q :: q in rest ==> rest[q] in refuses && rest[q] != v && q < |refusals| && refusals[q] == refuses[rest[q]]
    ensures Assignment(rest[p := v], refuses.Keys, refusals, 0) && rest[p := v].Values == refuses.Keys
    ensures forall q :: q in rest[p := v] ==>
              rest[p := v][q] in refuses && q < |refusals| && refusals[q] == refuses[rest[p := v][q]]
  {
    assert p !in rest;
    ValuesWith(rest, p, v);
  }

  /** Every outcome of the session was sealed, and every attempt that was not has been said to have aborted. */
  ghost predicate Delivered(log: seq<Emission>) {
    && (forall i :: 0 <= i < |log| && !log[i].event.outcome.Attempted? ==> log[i].sealed)
    && (forall i :: 0 <= i < |log| && !log[i].sealed ==> HasOutcome(log, log[i].event.id))
  }

  ghost predicate HasOutcome(log: seq<Emission>, id: Id) {
    exists j :: 0 <= j < |log| && log[j].event.id == id && !log[j].event.outcome.Attempted?
  }

  lemma {:induction false} RefusalIsListed(events: seq<Event>, g: Group, i: nat)
    requires i < |events| && InGroup(events[i], g) && IsRefusal(events, i)
    ensures events[i].signer.value.number in Refusals(events, g)
  {
    var last := |events| - 1;
    if i < last {
      assert forall j :: 0 <= j < last ==> events[..last][j] == events[j];
      RefusalIsListed(events[..last], g, i);
    }
  }

  lemma LoggedIsSealed(w: World, key: KeyId, n: nat) returns (i: nat)
    requires InSequence(w, key) && n < |w.log| && w.log[n].sealed
    ensures i < |w.host.chain| && w.host.chain[i].event == w.log[n].event
    ensures InGroup(w.host.chain[i].event, Group(key, w.session))
  {
    var r :| r in w.host.chain && r.event == w.log[n].event;
    i := PlaceIn(w.host.chain, r);
    assert WellMade(w.host.chain) && Valid(r.event);
  }

  lemma PlaceIn(records: seq<Record>, r: Record) returns (i: nat)
    requires r in records
    ensures i < |records| && records[i] == r
  {
    i :| 0 <= i < |records| && records[i] == r;
  }

  /** The sealed values of the session's sequence are the places of its sealed emissions. */
  lemma SealedAreLogged(w: World, key: KeyId, n: nat)
    requires InSequence(w, key)
    ensures n in Accounting.Sealed(EventsOf(w.host.chain), Group(key, w.session)) <==> n < |w.log| && w.log[n].sealed
  {
  }

  /** The abort of an attempt that was not sealed is a refusal: no sealed attempt correlates with it. */
  lemma AbortIsRefusal(w: World, key: KeyId, i: nat, j: nat)
    requires InSequence(w, key) && i < j < |w.log| && w.log[i].event.id == w.log[j].event.id
    requires !w.log[i].sealed && w.log[j].sealed
    ensures j in Refusals(EventsOf(w.host.chain), Group(key, w.session))
  {
    LogIsInOrder(w, key);
    var events, g := EventsOf(w.host.chain), Group(key, w.session);
    var p := LoggedIsSealed(w, key, j);
    forall q | 0 <= q < p && events[q].outcome.Attempted?
      ensures !SameOperation(events[q], events[p])
    {
      NoSealedAttempt(w, key, i, q);
    }
    RefusalIsListed(events, g, p);
  }

  lemma NoSealedAttempt(w: World, key: KeyId, i: nat, q: nat)
    requires InSequence(w, key) && i < |w.log| && !w.log[i].sealed && w.log[i].event.outcome.Attempted?
    requires q < |w.host.chain| && w.host.chain[q].event.outcome.Attempted?
    ensures !SameOperation(w.host.chain[q].event, w.log[i].event)
  {
    var e := w.host.chain[q].event;
    LogIsInOrder(w, key);
    assert w.host.chain[q] in w.host.chain;
    if e.session == w.session {
      assert SealedInLog(w.log, e);
      var k :| 0 <= k < |w.log| && w.log[k] == Emission(e, true);
      assert k != i;
    }
  }

  lemma MissingIsUnsealed(w: World, key: KeyId, i: nat)
    requires InSequence(w, key)
    requires i in Missing(Accounting.Sealed(EventsOf(w.host.chain), Group(key, w.session)))
    ensures i < |w.log| && !w.log[i].sealed
  {
    var sealed := Accounting.Sealed(EventsOf(w.host.chain), Group(key, w.session));
    SealedAreLogged(w, key, i);
    SealedAreLogged(w, key, Greatest(sealed));
  }

  lemma AbortComesLater(log: seq<Emission>, i: nat) returns (j: nat)
    requires OperationsInOrder(log) && Delivered(log) && i < |log| && !log[i].sealed
    ensures i < j < |log| && log[j].event.id == log[i].event.id && log[j].sealed
  {
    assert HasOutcome(log, log[i].event.id);
    j :| 0 <= j < |log| && log[j].event.id == log[i].event.id && !log[j].event.outcome.Attempted?;
  }

  /** A value that is missing is an attempt's that was not sealed, and its abort comes later. */
  lemma MissingIsRefused(w: World, key: KeyId, i: nat) returns (j: nat)
    requires InSequence(w, key) && Delivered(w.log)
    requires i in Missing(Accounting.Sealed(EventsOf(w.host.chain), Group(key, w.session)))
    ensures i < j < |w.log| && w.log[j].event.id == w.log[i].event.id
    ensures j in Refusals(EventsOf(w.host.chain), Group(key, w.session))
  {
    MissingIsUnsealed(w, key, i);
    LogIsInOrder(w, key);
    j := AbortComesLater(w.log, i);
    AbortIsRefusal(w, key, i, j);
  }

  /**
   * A session that delivered what it owed leaves nothing unaccounted: the auditor reports none of its numbers,
   * however many of its attempts were not sealed and whatever else the ledger holds.
   */
  lemma DeliveredIsAccounted(w: World, key: KeyId)
    requires InSequence(w, key) && Delivered(w.log)
    ensures Left(EventsOf(w.host.chain), Group(key, w.session)) == {}
  {
    var events, g := EventsOf(w.host.chain), Group(key, w.session);
    var missing, refusals := Missing(Accounting.Sealed(events, g)), Sorted(Refusals(events, g));
    forall v | v in missing
      ensures exists j :: RefusedBy(w.log, refusals, v, j)
    {
      var j := MissingIsRefused(w, key, v);
      SortedSame(Refusals(events, g), j);
      assert RefusedBy(w.log, refusals, v, j);
    }
    LogIsInOrder(w, key);
    var refuses := Refuses(w.log, refusals, missing);
    var a := PlacesOf(refuses, refusals);
    assert Assignment(a, missing, refusals, 0) && a.Values == missing;
    NothingLeftWhenCovered(missing, refusals);
  }

  /** Emission `j` refuses the attempt that is emission `v`. */
  ghost predicate RefusedBy(log: seq<Emission>, refusals: seq<nat>, v: nat, j: nat) {
    v < j < |log| && log[v].event.id == log[j].event.id && j in refusals
  }

  /** The refusal of each of a set of values. */
  lemma {:induction false} Refuses(log: seq<Emission>, refusals: seq<nat>, values: set<nat>) returns (refuses: map<nat, nat>)
    requires OperationsInOrder(log)
    requires forall v :: v in values ==> exists j :: RefusedBy(log, refusals, v, j)
    ensures refuses.Keys == values && Injective(refuses)
    ensures forall v :: v in refuses ==> RefusedBy(log, refusals, v, refuses[v])
    decreases values
  {
    if values == {} {
      refuses := map[];
    } else {
      var v := Least(values);
      var rest := Refuses(log, refusals, values - {v});
      var j :| RefusedBy(log, refusals, v, j);
      DifferentRefusals(log, rest, v, j);
      refuses := rest[v := j];
      assert refuses.Keys == values;
    }
  }

  /** An outcome belongs to one attempt. */
  lemma DifferentRefusals(log: seq<Emission>, rest: map<nat, nat>, v: nat, j: nat)
    requires OperationsInOrder(log) && v < j < |log| && log[v].event.id == log[j].event.id && v !in rest
    requires Injective(rest)
    requires forall u :: u in rest ==> u < rest[u] < |log| && log[u].event.id == log[rest[u]].event.id
    ensures Injective(rest[v := j])
  {
  }

  lemma SortedSame(s: seq<nat>, x: nat)
    requires x in s
    ensures x in Sorted(s)
  {
    assert x in multiset(s) && multiset(Sorted(s)) == multiset(s);
    assert x in multiset(Sorted(s));
  }

  /**
   * Sessions over an in-process host, from the start: once every outcome is delivered, the auditor's accounting of
   * the session comes out empty.
   */
  lemma RunIsAccounted(h: Host, session: SessionId, key: KeyId, steps: seq<ToolStep>)
    requires Clean(h) && h.config.level.L2? && session !in h.issued
    requires AllAllowed(Begin(h, session), steps, key) && Delivered(TakeAll(Begin(h, session), steps).log)
    ensures Left(EventsOf(TakeAll(Begin(h, session), steps).host.chain), Group(key, session)) == {}
  {
    BeginsInSequence(h, session, key);
    AlwaysInSequence(Begin(h, session), key, steps);
    SessionStays(h, session, steps);
    DeliveredIsAccounted(TakeAll(Begin(h, session), steps), key);
  }
}
