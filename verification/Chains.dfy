/** What the host keeps true of the list of records it seals. */
module Chains {
  import opened Records
  import opened Ledgers

  ghost predicate AttemptIn(records: seq<Record>, session: SessionId, id: Id) {
    exists r :: r in records && r.event.outcome.Attempted? && r.event.session == session && r.event.id == id
  }

  ghost predicate CorrelatedAt(records: seq<Record>, i: nat)
    requires i < |records|
  {
    records[i].event.outcome.Success? || records[i].event.outcome.Failed? ==>
      AttemptIn(records[..i], records[i].event.session, records[i].event.id)
  }

  /** Every success or failure follows its attempt, in the same session. */
  ghost predicate Correlated(records: seq<Record>) {
    forall i :: 0 <= i < |records| ==> CorrelatedAt(records, i)
  }

  /** No two attempts of the partition share an id, whatever their sessions. */
  ghost predicate UniqueAttempts(records: seq<Record>) {
    forall i, j :: 0 <= i < j < |records| && records[i].event.outcome.Attempted? && records[j].event.outcome.Attempted? ==>
      records[i].event.id != records[j].event.id
  }

  ghost predicate WellMade(records: seq<Record>) {
    forall r :: r in records ==> Valid(r.event) && r.event.canonicalizable && !r.triple.Partial?
  }

  ghost predicate Sane(records: seq<Record>) {
    Linked(records) && WellMade(records) && Correlated(records) && UniqueAttempts(records)
  }

  /** An event that may be sealed next without breaking any of that. */
  ghost predicate CanFollow(records: seq<Record>, e: Event) {
    && Valid(e) && e.canonicalizable
    && (e.outcome.Success? || e.outcome.Failed? ==> AttemptIn(records, e.session, e.id))
    && (e.outcome.Attempted? ==> forall r :: r in records && r.event.outcome.Attempted? ==> r.event.id != e.id)
  }

  ghost predicate Continues(records: seq<Record>, r: Record) {
    && Uncountersigned(r) == SealNext(records, r.event, r.hostTs)
    && !r.triple.Partial?
    && CanFollow(records, r.event)
  }

  lemma SaneExtend(records: seq<Record>, r: Record)
    requires Sane(records) && Continues(records, r)
    ensures Sane(records + [r])
  {
    LinkedExtend(records, r);
    CorrelatedExtend(records, r);
  }

  lemma CorrelatedExtend(records: seq<Record>, r: Record)
    requires Correlated(records)
    requires r.event.outcome.Success? || r.event.outcome.Failed? ==> AttemptIn(records, r.event.session, r.event.id)
    ensures Correlated(records + [r])
  {
    var all := records + [r];
    forall i: nat | i < |all|
      ensures CorrelatedAt(all, i)
    {
      assert i < |records| ==> CorrelatedAt(records, i);
      assert all[..i] == if i < |records| then records[..i] else records;
    }
  }

  /**
   * Two records of one chain agree, the first sealed before the second: they do not share a number of one key
   * and session, and if they belong to one operation the first is its attempt and the second its terminal record.
   */
  predicate Compatible(earlier: Event, later: Event, numbered: bool) {
    && (numbered ==> !SameNumber(earlier, later))
    && (SameOperation(earlier, later) ==> earlier.outcome.Attempted? && !later.outcome.Attempted?)
  }

  ghost predicate Tidy(records: seq<Record>, numbered: bool) {
    forall i, j :: 0 <= i < j < |records| ==> Compatible(records[i].event, records[j].event, numbered)
  }

  ghost predicate FitsAfter(records: seq<Record>, e: Event, numbered: bool) {
    forall r :: r in records ==> Compatible(r.event, e, numbered)
  }

  lemma TidyExtend(records: seq<Record>, r: Record, numbered: bool)
    requires Tidy(records, numbered) && FitsAfter(records, r.event, numbered)
    ensures Tidy(records + [r], numbered)
  {
  }

  lemma TidyFront(records: seq<Record>, r: Record, numbered: bool)
    requires Tidy(records + [r], numbered)
    ensures Tidy(records, numbered) && FitsAfter(records, r.event, numbered)
  {
    var all := records + [r];
    forall i, j | 0 <= i < j < |records|
      ensures Compatible(records[i].event, records[j].event, numbered)
    {
      assert all[i] == records[i] && all[j] == records[j];
    }
    forall x | x in records
      ensures Compatible(x.event, r.event, numbered)
    {
      var i :| 0 <= i < |records| && records[i] == x;
      assert all[i] == x && all[|records|] == r;
    }
  }

  lemma AttemptInExtend(records: seq<Record>, r: Record, session: SessionId, id: Id)
    ensures AttemptIn(records + [r], session, id) <==>
              || AttemptIn(records, session, id)
              || (r.event.outcome.Attempted? && r.event.session == session && r.event.id == id)
  {
  }
}
