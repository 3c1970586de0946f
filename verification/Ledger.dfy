/** The hash chain of one partition: sealing, committing, and what a list of records must be to be one. */
module Ledgers {
  import opened Records

  /** The anchorable digest of a chain. */
  function TailHash(chain: seq<Record>): Hash {
    if chain == [] then Genesis else chain[|chain| - 1].recordHash
  }

  /** The record that continues `chain` with `event`. */
  function SealNext(chain: seq<Record>, event: Event, hostTs: Time): Record {
    Record(event, |chain|, hostTs, TailHash(chain), Digest(event, |chain|, hostTs, TailHash(chain)), Absent)
  }

  /** The record sits at its own position, links to the one before it, and hashes its own body. */
  predicate LinkedAt(records: seq<Record>, i: nat)
    requires i < |records|
  {
    Uncountersigned(records[i]) == SealNext(records[..i], records[i].event, records[i].hostTs)
  }

  ghost predicate Linked(records: seq<Record>) {
    forall i :: 0 <= i < |records| ==> LinkedAt(records, i)
  }

  datatype Body = Body(event: Event, hostTs: Time)

  /** What `Append` builds from genesis on `bodies`. */
  function Build(bodies: seq<Body>): (chain: seq<Record>)
    ensures |chain| == |bodies|
  {
    if bodies == [] then []
    else
      var last := |bodies| - 1;
      var chain := Build(bodies[..last]);
      chain + [SealNext(chain, bodies[last].event, bodies[last].hostTs)]
  }

  function Bodies(records: seq<Record>): (bodies: seq<Body>)
    ensures |bodies| == |records|
  {
    seq(|records|, i requires 0 <= i < |records| => Body(records[i].event, records[i].hostTs))
  }

  function Plain(records: seq<Record>): (plain: seq<Record>)
    ensures |plain| == |records|
  {
    seq(|records|, i requires 0 <= i < |records| => Uncountersigned(records[i]))
  }

  lemma LinkedPrefix(records: seq<Record>, n: nat)
    requires Linked(records) && n <= |records|
    ensures Linked(records[..n])
  {
    forall i: nat | i < n
      ensures LinkedAt(records[..n], i)
    {
      assert LinkedAt(records, i) && records[..n][..i] == records[..i];
    }
  }

  lemma LinkedExtend(records: seq<Record>, r: Record)
    requires Linked(records)
    requires Uncountersigned(r) == SealNext(records, r.event, r.hostTs)
    ensures Linked(records + [r])
  {
    var all := records + [r];
    forall i: nat | i < |all|
      ensures LinkedAt(all, i)
    {
      assert i < |records| ==> LinkedAt(records, i);
      assert all[..i] == if i < |records| then records[..i] else records;
    }
  }

  /** The linked lists are exactly what appending their bodies from genesis builds. */
  lemma LinkedIsBuilt(records: seq<Record>)
    ensures Linked(records) <==> Plain(records) == Build(Bodies(records))
  {
    if Linked(records) {
      LinkedIsBuiltFrom(records);
    }
    if Plain(records) == Build(Bodies(records)) {
      BuiltIsLinked(records);
    }
  }

  lemma {:induction false} LinkedIsBuiltFrom(records: seq<Record>)
    requires Linked(records)
    ensures Plain(records) == Build(Bodies(records))
  {
    if records != [] {
      var front := records[..|records| - 1];
      LinkedPrefix(records, |front|);
      LinkedIsBuiltFrom(front);
      assert Bodies(records)[..|front|] == Bodies(front);
      TailIsPlain(front);
      assert LinkedAt(records, |front|);
      assert Plain(records) == Plain(front) + [Uncountersigned(records[|front|])];
    }
  }

  lemma {:induction false} BuiltIsLinked(records: seq<Record>)
    requires Plain(records) == Build(Bodies(records))
    ensures Linked(records)
  {
    if records != [] {
      var n := |records| - 1;
      var front := records[..n];
      assert Bodies(records)[..n] == Bodies(front);
      var built := Build(Bodies(front));
      assert Plain(records) == built + [SealNext(built, records[n].event, records[n].hostTs)];
      assert Plain(front) == Plain(records)[..n] == built;
      BuiltIsLinked(front);
      TailIsPlain(front);
      assert Uncountersigned(records[n]) == Plain(records)[n];
      LinkedExtend(front, records[n]);
      assert front + [records[n]] == records;
    }
  }

  lemma TailIsPlain(records: seq<Record>)
    ensures TailHash(Plain(records)) == TailHash(records)
  {
  }

  /** Only the empty chain has the genesis digest. */
  lemma TailIsDigest(chain: seq<Record>)
    requires Linked(chain)
    ensures TailHash(chain).Genesis? <==> chain == []
  {
    if chain != [] {
      assert LinkedAt(chain, |chain| - 1);
    }
  }

  /** A chain's digest fixes the whole chain, countersignatures apart. */
  lemma {:induction false} DigestFixesChain(a: seq<Record>, b: seq<Record>)
    requires Linked(a) && Linked(b) && TailHash(a) == TailHash(b)
    ensures Plain(a) == Plain(b)
  {
    if a != [] && b != [] {
      var m, n := |a| - 1, |b| - 1;
      assert LinkedAt(a, m) && LinkedAt(b, n);
      LinkedPrefix(a, m);
      LinkedPrefix(b, n);
      DigestFixesChain(a[..m], b[..n]);
      assert Plain(a) == Plain(a[..m]) + [Uncountersigned(a[m])];
      assert Plain(b) == Plain(b[..n]) + [Uncountersigned(b[n])];
    } else {
      TailIsDigest(a);
      TailIsDigest(b);
    }
  }

  /** An append-only, single-partition ledger. It may hold only the records sealed since it was resumed. */
  class Ledger {
    var records: seq<Record>
    var count: int
    var tailHash: Hash
    /** The whole chain, the resumed prefix included. */
    ghost var chain: seq<Record>

    ghost predicate Valid()
      reads this
    {
      && count == |chain|
      && tailHash == TailHash(chain)
      && |records| <= |chain|
      && records == chain[|chain| - |records|..]
    }

    constructor ()
      ensures Valid() && chain == [] && records == []
    {
      records, count, tailHash, chain := [], 0, Genesis, [];
    }

    /** Compute the next record without committing it. */
    method Seal(event: Event, hostTs: Time) returns (sealed: Record)
      requires Valid() && event.canonicalizable
      ensures sealed == SealNext(chain, event, hostTs)
    {
      sealed := Record(event, count, hostTs, tailHash, Digest(event, count, hostTs, tailHash), Absent);
    }

    method Commit(record: Record)
      requires Valid()
      modifies this
      ensures Valid()
      ensures chain == old(chain) + [record]
      ensures records == old(records) + [record]
    {
      records := records + [record];
      count := count + 1;
      tailHash := record.recordHash;
      chain := chain + [record];
    }

    method Append(event: Event, hostTs: Time) returns (sealed: Record)
      requires Valid() && event.canonicalizable
      modifies this
      ensures Valid()
      ensures sealed == SealNext(old(chain), event, hostTs)
      ensures chain == old(chain) + [sealed]
      ensures old(Linked(chain)) ==> Linked(chain)
    {
      sealed := Seal(event, hostTs);
      if Linked(chain) {
        LinkedExtend(chain, sealed);
      }
      Commit(sealed);
    }

    /** Continue a persisted chain from its tail alone; `history` is the chain that tail ends. */
    method ResumeFrom(tail: Option<Record>, ghost history: seq<Record>)
      requires tail.None? ==> history == []
      requires tail.Some? ==> history != [] && tail.value == history[|history| - 1] && tail.value.position == |history| - 1
      modifies this
      ensures Valid() && chain == history && records == []
    {
      records := [];
      chain := history;
      match tail {
        case Some(r) =>
          count := r.position + 1;
          tailHash := r.recordHash;
        case None =>
          count := 0;
          tailHash := Genesis;
      }
    }
  }
}
