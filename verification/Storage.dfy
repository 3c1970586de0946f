/** The durable store of sealed records, in memory: an append is conditional on the record's position. */
module Storage {
  import opened Records

  type Partition = nat

  /** Where the next record of a stored chain has to be. */
  function NextPosition(records: seq<Record>): int {
    if records == [] then 0 else records[|records| - 1].position + 1
  }

  /** Every record is stored at its own position, so no two share one. */
  ghost predicate Placed(records: seq<Record>) {
    forall i :: 0 <= i < |records| ==> records[i].position == i
  }

  class InMemoryLedgerRepository {
    var byPartition: map<Partition, seq<Record>>

    ghost predicate Valid()
      reads this
    {
      forall p :: p in byPartition ==> Placed(byPartition[p])
    }

    function Of(p: Partition): seq<Record>
      reads this
    {
      if p in byPartition then byPartition[p] else []
    }

    constructor ()
      ensures Valid() && forall p :: Of(p) == []
    {
      byPartition := map[];
    }

    /** Append `record`, or refuse it and change nothing when it is not the partition's next position. */
    method Append(p: Partition, record: Record) returns (stored: bool)
      requires Valid()
      modifies this
      ensures Valid()
      ensures stored <==> record.position == NextPosition(old(Of(p)))
      ensures stored <==> record.position == |old(Of(p))|
      ensures Of(p) == if stored then old(Of(p)) + [record] else old(Of(p))
      ensures forall q :: q != p ==> Of(q) == old(Of(q))
    {
      var records := if p in byPartition then byPartition[p] else [];
      var next := if records == [] then 0 else records[|records| - 1].position + 1;
      if record.position != next {
        return false;
      }
      byPartition := byPartition[p := records + [record]];
      stored := true;
    }

    method LoadTail(p: Partition) returns (tail: Option<Record>)
      ensures tail.None? <==> Of(p) == []
      ensures tail.Some? ==> tail.value == Of(p)[|Of(p)| - 1]
    {
      if p in byPartition && byPartition[p] != [] {
        tail := Some(byPartition[p][|byPartition[p]| - 1]);
      } else {
        tail := None;
      }
    }

    method ReadAll(p: Partition) returns (records: seq<Record>)
      ensures records == Of(p)
    {
      records := if p in byPartition then byPartition[p] else [];
    }
  }
}
