/** What the auditor finds in what the host sealed: the host and the verifier, joined. */
module HonestLedgers {
  import opened Records
  import opened Ledgers
  import Accounting
  import opened Verify
  import opened Tampering
  import opened Hosts
  import opened Chains
  import opened HostInvariants
  import opened HostTidiness
  import opened Persistence

  /** The auditor's registries, where it has them, bear the signatures of these records out. */
  ghost predicate Vouched(records: seq<Record>, o: Options) {
    forall r :: r in records ==> !BadSignature(r, o) && !BadCountersignature(r, true, o)
  }

  ghost predicate FindsOnly(issues: seq<Issue>, kinds: set<Code>) {
    forall kind :: Found(issues, kind) ==> kind in kinds
  }

  lemma SaneIsHashable(records: seq<Record>)
    requires Sane(records)
    ensures AllHashable(records)
  {
  }

  /** In a sane chain no record deserves a finding about order, schema, hashes or correlation. */
  lemma SaneDeserves(records: seq<Record>, o: Options, i: nat, kind: Code)
    requires Sane(records) && Vouched(records, o) && i < |records|
    requires Deserves(records, i, o, kind)
    ensures kind.ReplayDetected? && Renumbered(records, i)
  {
    SaneIsHashable(records);
    IntactIsBuilt(records, o);
    ChainFinds(records, o, SeqGap);
    ChainFinds(records, o, RecordHashMismatch);
    assert records[i] in records;
    if kind.OrphanedOutcome? {
      NotOrphaned(records, i);
    }
  }

  lemma NotOrphaned(records: seq<Record>, i: nat)
    requires Sane(records) && i < |records|
    ensures !Orphaned(records, i)
  {
    assert CorrelatedAt(records, i);
  }

  lemma SaneFinds(records: seq<Record>, o: Options, kind: Code)
    requires Sane(records) && Vouched(records, o) && Found(LedgerIssues(records, o), kind)
    ensures kind in {SignerSeqGap, ReplayDetected, DigestMismatch}
  {
    LedgerFinds(records, o, kind);
    forall i | 0 <= i < |records|
      ensures Valid(records[i].event)
    {
      assert records[i] in records;
    }
    ChainFinds(records, o, kind);
    if i :| 0 <= i < |records| && Deserves(records, i, o, kind) {
      SaneDeserves(records, o, i, kind);
    }
  }

  lemma SaneReplays(records: seq<Record>, o: Options)
    requires Sane(records)
    ensures Found(LedgerIssues(records, o), ReplayDetected) <==> exists i :: 0 <= i < |records| && Renumbered(records, i)
  {
    SaneIsHashable(records);
    LedgerFinds(records, o, ReplayDetected);
    ChainFinds(records, o, ReplayDetected);
    if i :| 0 <= i < |records| && Renumbered(records, i) {
      assert Deserves(records, i, o, ReplayDetected);
    }
  }

  lemma SaneAnchors(records: seq<Record>, o: Options)
    requires Sane(records)
    ensures Found(LedgerIssues(records, o), DigestMismatch) <==>
              o.anchoredDigest.Some? && o.anchoredDigest.value != TailHash(records)
  {
    SaneIsHashable(records);
    LinksAgree(records, |records|);
    assert records[..|records|] == records;
    AnchorFinds(records, o);
  }

  /** A sane chain: whatever is found in it is one of three kinds, and when each of two of them is. */
  lemma SaneVerifies(records: seq<Record>, o: Options)
    requires Sane(records) && Vouched(records, o)
    ensures FindsOnly(LedgerIssues(records, o), {SignerSeqGap, ReplayDetected, DigestMismatch})
    ensures Found(LedgerIssues(records, o), ReplayDetected) <==> exists i :: 0 <= i < |records| && Renumbered(records, i)
    ensures Found(LedgerIssues(records, o), DigestMismatch) <==>
              o.anchoredDigest.Some? && o.anchoredDigest.value != TailHash(records)
  {
    SaneReplays(records, o);
    SaneAnchors(records, o);
    SaneFindsOnly(records, o);
  }

  lemma SaneFindsOnly(records: seq<Record>, o: Options)
    requires Sane(records) && Vouched(records, o)
    ensures FindsOnly(LedgerIssues(records, o), {SignerSeqGap, ReplayDetected, DigestMismatch})
  {
    forall kind | Found(LedgerIssues(records, o), kind)
      ensures kind in {SignerSeqGap, ReplayDetected, DigestMismatch}
    {
      SaneFinds(records, o, kind);
    }
  }

  lemma TidyIsNotRenumbered(records: seq<Record>, i: nat)
    requires Tidy(records, true) && i < |records|
    ensures !Renumbered(records, i)
  {
  }

  /** The stored records under the host's own digest, and an auditor whose registries bear the signatures out. */
  ghost predicate Audits(h: Host, o: Options) {
    Vouched(Whole(h), o) && o.anchoredDigest == Some(TailHash(h.chain))
  }

  /** The host's digest is missed exactly while the store holds a record the host has not adopted. */
  lemma AnchorTells(h: Host, o: Options)
    requires Invariant(h) && Audits(h, o)
    ensures Sane(Whole(h))
    ensures Found(LedgerIssues(Whole(h), o), DigestMismatch) <==> Whole(h) != h.chain
  {
    if h.config.persistent {
      StoreIsSane(h);
    }
    SaneAnchors(Whole(h), o);
    if TailHash(Whole(h)) == TailHash(h.chain) {
      DigestFixesChain(Whole(h), h.chain);
    }
  }

  /**
   * Whatever a host's collaborators do, the auditor finds nothing in what is stored but numbers missing or sealed
   * twice, and the digest missed where a record that landed is not adopted yet.
   */
  lemma AnyHostVerifies(config: Config, ops: seq<Op>, o: Options)
    requires Audits(Run(Initial(config), ops), o)
    ensures var h := Run(Initial(config), ops);
            && FindsOnly(LedgerIssues(Whole(h), o), {SignerSeqGap, ReplayDetected, DigestMismatch})
            && (Found(LedgerIssues(Whole(h), o), DigestMismatch) <==> Whole(h) != h.chain)
  {
    RunKeeps(config, ops);
    AnchorTells(Run(Initial(config), ops), o);
    SaneVerifies(Whole(Run(Initial(config), ops)), o);
  }

  /** For a Level 2 host that adopts nothing into an open session, no number is sealed twice. */
  lemma HonestHostVerifies(config: Config, ops: seq<Op>, o: Options)
    requires config.level.L2? && NeverAdopts(config, ops) && Audits(Run(Initial(config), ops), o)
    ensures var h := Run(Initial(config), ops);
            && FindsOnly(LedgerIssues(Whole(h), o), {SignerSeqGap, DigestMismatch})
            && (Found(LedgerIssues(Whole(h), o), DigestMismatch) <==> Whole(h) != h.chain)
  {
    var h := Run(Initial(config), ops);
    AnyHostVerifies(config, ops, o);
    RunTidied(config, ops);
    RunKeepsConfig(config, ops);
    AnchorTells(h, o);
    SaneReplays(Whole(h), o);
    forall i | 0 <= i < |Whole(h)|
      ensures !Renumbered(Whole(h), i)
    {
      TidyIsNotRenumbered(Whole(h), i);
    }
  }

  /** For events without Level 2 members, at either level, there is nothing about numbers to find. */
  lemma UnsignedHostVerifies(config: Config, ops: seq<Op>, o: Options)
    requires forall e :: e in Sent(ops) ==> e.signer.None?
    requires Audits(Run(Initial(config), ops), o)
    ensures var h := Run(Initial(config), ops);
            && FindsOnly(LedgerIssues(Whole(h), o), {DigestMismatch})
            && (Found(LedgerIssues(Whole(h), o), DigestMismatch) <==> Whole(h) != h.chain)
  {
    var h := Run(Initial(config), ops);
    AnyHostVerifies(config, ops, o);
    RunKeeps(config, ops);
    RecordsAreMade(config, ops);
    AnchorTells(h, o);
    forall i | 0 <= i < |Whole(h)|
      ensures Whole(h)[i].event.signer.None?
    {
      assert Whole(h)[i] in Whole(h);
    }
    UnsignedIsUnnumbered(Whole(h), o);
  }

  lemma UnsignedIsUnnumbered(records: seq<Record>, o: Options)
    requires Sane(records) && forall i :: 0 <= i < |records| ==> records[i].event.signer.None?
    ensures !Found(LedgerIssues(records, o), SignerSeqGap) && !Found(LedgerIssues(records, o), ReplayDetected)
  {
    SaneReplays(records, o);
    UnsignedHasNoGroups(EventsOf(records));
    SaneIsHashable(records);
    LedgerFinds(records, o, SignerSeqGap);
    ChainFinds(records, o, SignerSeqGap);
  }

  lemma {:induction false} UnsignedHasNoGroups(events: seq<Event>)
    requires forall i :: 0 <= i < |events| ==> events[i].signer.None?
    ensures Accounting.Groups(events) == []
  {
    if events != [] {
      UnsignedHasNoGroups(events[..|events| - 1]);
    }
  }

  /** An auditor without registries that asks for countersignatures only of a host that gives them. */
  ghost predicate Asks(o: Options, config: Config) {
    && o.countersignatureChecker.None? && o.signatureChecker.None?
    && (o.countersignatureRequired ==> config.countersigner.Some?)
  }

  /** Such an auditor needs no vouching: the host countersigns every record or none. */
  lemma MadeIsVouched(config: Config, ops: seq<Op>, o: Options)
    requires Asks(o, config)
    ensures Vouched(Whole(Run(Initial(config), ops)), o)
  {
    RecordsAreMade(config, ops);
  }

  // ---------------------------------------------------------------------------------------------------
  // What every run keeps of the records themselves.

  /** No run seals two attempts under one id, and the host's indices are those of its chain. */
  lemma AttemptsAreSealedOnce(config: Config, ops: seq<Op>)
    ensures var h := Run(Initial(config), ops);
            && UniqueAttempts(Whole(h)) && Correlated(Whole(h))
            && AttemptsIndexed(h.chain, h.sealedAttempts) && EventsIndexed(h.chain, h.sealedEvents)
  {
    RunKeeps(config, ops);
    RunKeepsConfig(config, ops);
    if config.persistent {
      StoreIsSane(Run(Initial(config), ops));
    }
  }

  /**
   * Without an adoption into an open session, an operation has at most one terminal record, and no attempt is
   * sealed after its own: two records of one operation are its attempt and then its terminal record.
   */
  lemma OperationsAreSealedInOrder(config: Config, ops: seq<Op>, i: nat, j: nat)
    requires NeverAdopts(config, ops)
    requires i < j < |Whole(Run(Initial(config), ops))|
    requires var whole := Whole(Run(Initial(config), ops)); SameOperation(whole[i].event, whole[j].event)
    ensures var whole := Whole(Run(Initial(config), ops));
            whole[i].event.outcome.Attempted? && !whole[j].event.outcome.Attempted?
  {
    RunTidied(config, ops);
    var whole := Whole(Run(Initial(config), ops));
    assert Compatible(whole[i].event, whole[j].event, Numbering(Run(Initial(config), ops)));
  }
}
