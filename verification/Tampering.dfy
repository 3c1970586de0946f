/** What an auditor's report says about a list of records: which findings, and what their absence means. */
module Tampering {
  import opened Records
  import opened Ledgers
  import opened Verify
  import Accounting

  ghost predicate Found(issues: seq<Issue>, kind: Code) {
    exists i :: 0 <= i < |issues| && issues[i].kind == kind
  }

  /** When one record is reported under a kind. */
  ghost predicate Deserves(records: seq<Record>, i: nat, o: Options, kind: Code)
    requires i < |records|
  {
    var r := records[i];
    match kind
    case SeqGap => r.position != i
    case SchemaInvalid => !r.event.canonicalizable
    case RecordHashMismatch =>
      r.event.canonicalizable && (r.previousHash != Link(records, i) || r.recordHash != Link(records, i + 1))
    case OrphanedOutcome => r.event.canonicalizable && Orphaned(records, i)
    case ReplayDetected => r.event.canonicalizable && Renumbered(records, i)
    case SignatureInvalid => r.event.canonicalizable && BadSignature(r, o)
    case HostSignatureInvalid => BadCountersignature(r, r.event.canonicalizable, o)
    case _ => false
  }

  lemma FoundConcat(a: seq<Issue>, b: seq<Issue>, kind: Code)
    ensures Found(a + b, kind) <==> Found(a, kind) || Found(b, kind)
  {
    var all := a + b;
    if i :| 0 <= i < |b| && b[i].kind == kind {
      assert all[|a| + i].kind == kind;
    }
    if i :| 0 <= i < |a| && a[i].kind == kind {
      assert all[i].kind == kind;
    }
  }

  lemma FoundWhen(found: bool, r: Record, kind: Code, sought: Code)
    ensures Found(When(found, r, kind), sought) <==> found && kind == sought
  {
    if found {
      assert When(found, r, kind)[0].kind == kind;
    }
  }

  lemma RecordFinds(records: seq<Record>, i: nat, o: Options, kind: Code)
    requires i < |records|
    ensures Found(RecordIssues(records, i, o), kind) <==> Deserves(records, i, o, kind)
  {
    var r := records[i];
    var gap := When(r.position != i, r, SeqGap);
    FoundWhen(r.position != i, r, SeqGap, kind);
    if !r.event.canonicalizable {
      var bad := When(BadCountersignature(r, false, o), r, HostSignatureInvalid);
      FoundWhen(BadCountersignature(r, false, o), r, HostSignatureInvalid, kind);
      FoundWhen(true, r, SchemaInvalid, kind);
      FoundConcat([Issue(Some(r.position), SchemaInvalid)], bad, kind);
      FoundConcat(gap, [Issue(Some(r.position), SchemaInvalid)] + bad, kind);
    } else {
      HashedFinds(records, i, o, kind);
      FoundConcat(gap, HashedIssues(records, i, o), kind);
    }
  }

  ghost function HashedIssues(records: seq<Record>, i: nat, o: Options): seq<Issue>
    requires i < |records|
  {
    var r := records[i];
    When(r.previousHash != Link(records, i), r, RecordHashMismatch) +
    When(r.recordHash != Link(records, i + 1), r, RecordHashMismatch) +
    When(Orphaned(records, i), r, OrphanedOutcome) +
    When(Renumbered(records, i), r, ReplayDetected) +
    When(BadSignature(r, o), r, SignatureInvalid) +
    When(BadCountersignature(r, true, o), r, HostSignatureInvalid)
  }

  lemma HashedFinds(records: seq<Record>, i: nat, o: Options, kind: Code)
    requires i < |records| && records[i].event.canonicalizable
    ensures Found(HashedIssues(records, i, o), kind) <==> !kind.SeqGap? && Deserves(records, i, o, kind)
  {
    var r := records[i];
    var link, hash := r.previousHash != Link(records, i), r.recordHash != Link(records, i + 1);
    var s0, s1 := When(link, r, RecordHashMismatch), When(hash, r, RecordHashMismatch);
    var s2, s3 := When(Orphaned(records, i), r, OrphanedOutcome), When(Renumbered(records, i), r, ReplayDetected);
    var s4 := When(BadSignature(r, o), r, SignatureInvalid);
    var s5 := When(BadCountersignature(r, true, o), r, HostSignatureInvalid);
    FoundWhen(link, r, RecordHashMismatch, kind);
    FoundWhen(hash, r, RecordHashMismatch, kind);
    FoundWhen(Orphaned(records, i), r, OrphanedOutcome, kind);
    FoundWhen(Renumbered(records, i), r, ReplayDetected, kind);
    FoundWhen(BadSignature(r, o), r, SignatureInvalid, kind);
    FoundWhen(BadCountersignature(r, true, o), r, HostSignatureInvalid, kind);
    FoundConcat(s0, s1, kind);
    FoundConcat(s0 + s1, s2, kind);
    FoundConcat(s0 + s1 + s2, s3, kind);
    FoundConcat(s0 + s1 + s2 + s3, s4, kind);
    FoundConcat(s0 + s1 + s2 + s3 + s4, s5, kind);
  }

  function Joined(parts: seq<seq<Issue>>): seq<Issue> {
    if parts == [] then [] else Joined(parts[..|parts| - 1]) + parts[|parts| - 1]
  }

  lemma {:induction false} JoinedFinds(parts: seq<seq<Issue>>, kind: Code)
    ensures Found(Joined(parts), kind) <==> exists i :: 0 <= i < |parts| && Found(parts[i], kind)
  {
    if parts != [] {
      var n := |parts| - 1;
      JoinedFinds(parts[..n], kind);
      FoundConcat(Joined(parts[..n]), parts[n], kind);
      assert forall i :: 0 <= i < n ==> parts[..n][i] == parts[i];
    }
  }

  function PartsOf(records: seq<Record>, n: nat, o: Options): (parts: seq<seq<Issue>>)
    requires n <= |records|
    ensures |parts| == n
  {
    seq(n, i requires 0 <= i < n => RecordIssues(records, i, o))
  }

  lemma {:induction false} BeforeIsJoined(records: seq<Record>, n: nat, o: Options)
    requires n <= |records|
    ensures IssuesBefore(records, n, o) == Joined(PartsOf(records, n, o))
  {
    if n > 0 {
      BeforeIsJoined(records, n - 1, o);
      assert PartsOf(records, n, o)[..n - 1] == PartsOf(records, n - 1, o);
    }
  }

  lemma BeforeFinds(records: seq<Record>, n: nat, o: Options, kind: Code)
    requires n <= |records|
    ensures Found(IssuesBefore(records, n, o), kind) <==> exists i :: 0 <= i < n && Deserves(records, i, o, kind)
  {
    var parts := PartsOf(records, n, o);
    BeforeIsJoined(records, n, o);
    JoinedFinds(parts, kind);
    forall i | 0 <= i < n
      ensures Found(parts[i], kind) <==> Deserves(records, i, o, kind)
    {
      RecordFinds(records, i, o, kind);
    }
  }

  /** A chain report holds a kind exactly when some record, the numbering, or the anchor deserves it. */
  lemma ChainFinds(records: seq<Record>, o: Options, kind: Code)
    ensures Found(ChainIssues(records, o), kind) <==>
              || (exists i :: 0 <= i < |records| && Deserves(records, i, o, kind))
              || (kind.SignerSeqGap? && Gaps(records) != [])
              || (kind.DigestMismatch? && OffAnchor(records, o))
  {
    var before, gaps := IssuesBefore(records, |records|, o), GapIssues(Gaps(records));
    BeforeFinds(records, |records|, o, kind);
    FoundGaps(Gaps(records), kind);
    FoundAnchor(records, o, kind);
    FoundConcat(before, gaps, kind);
    FoundConcat(before + gaps, AnchorIssues(records, o), kind);
  }

  lemma FoundGaps(gaps: seq<Accounting.Unaccounted>, kind: Code)
    ensures Found(GapIssues(gaps), kind) <==> kind.SignerSeqGap? && gaps != []
  {
    if gaps != [] {
      assert GapIssues(gaps)[0].kind == SignerSeqGap;
    }
  }

  lemma FoundAnchor(records: seq<Record>, o: Options, kind: Code)
    ensures Found(AnchorIssues(records, o), kind) <==> kind.DigestMismatch? && OffAnchor(records, o)
  {
    if OffAnchor(records, o) {
      assert AnchorIssues(records, o)[0].kind == DigestMismatch;
    }
  }

  /** A ledger report adds nothing but schema findings, at positions that have none yet. */
  lemma LedgerFinds(records: seq<Record>, o: Options, kind: Code)
    ensures Found(LedgerIssues(records, o), kind) <==>
              || Found(ChainIssues(records, o), kind)
              || (kind.SchemaInvalid? && exists i :: 0 <= i < |records| && !Valid(records[i].event))
  {
    var chain := ChainIssues(records, o);
    var reported := SchemaReported(chain);
    SchemaFinds(records, |records|, reported, kind);
    FoundConcat(chain, SchemaIssues(records, |records|, reported), kind);
    if i :| 0 <= i < |records| && !Valid(records[i].event) && Some(records[i].position) in reported {
      var k :| 0 <= k < |chain| && chain[k].kind.SchemaInvalid? && chain[k].position == Some(records[i].position);
      assert Found(chain, SchemaInvalid);
    }
  }

  lemma ChainAnchorFinds(records: seq<Record>, o: Options)
    ensures Found(ChainIssues(records, o), DigestMismatch) <==> OffAnchor(records, o)
  {
    ChainFinds(records, o, DigestMismatch);
    assert forall i :: 0 <= i < |records| ==> !Deserves(records, i, o, DigestMismatch);
  }

  lemma AnchorFinds(records: seq<Record>, o: Options)
    ensures Found(ChainIssues(records, o), DigestMismatch) <==> OffAnchor(records, o)
    ensures Found(LedgerIssues(records, o), DigestMismatch) <==> OffAnchor(records, o)
  {
    ChainAnchorFinds(records, o);
    LedgerFinds(records, o, DigestMismatch);
  }

  lemma {:induction false} SchemaFinds(records: seq<Record>, n: nat, reported: set<Option<int>>, kind: Code)
    requires n <= |records|
    ensures Found(SchemaIssues(records, n, reported), kind) <==>
              kind.SchemaInvalid? &&
              exists i :: 0 <= i < n && !Valid(records[i].event) && Some(records[i].position) !in reported
  {
    if n > 0 {
      var r := records[n - 1];
      var bad := !Valid(r.event) && Some(r.position) !in reported;
      SchemaFinds(records, n - 1, reported, kind);
      FoundWhen(bad, r, SchemaInvalid, kind);
      FoundConcat(SchemaIssues(records, n - 1, reported), When(bad, r, SchemaInvalid), kind);
    }
  }

  // ---------------------------------------------------------------------------------------------------
  // What the absence of findings means.

  ghost predicate AllHashable(records: seq<Record>) {
    forall i :: 0 <= i < |records| ==> records[i].event.canonicalizable
  }

  /** No finding about the chain itself: order, links, and record hashes. */
  ghost predicate Intact(issues: seq<Issue>) {
    !Found(issues, SeqGap) && !Found(issues, RecordHashMismatch)
  }

  /** In a linked list of hashable records the recomputed links are the stored ones. */
  lemma {:induction false} LinksAgree(records: seq<Record>, n: nat)
    requires Linked(records) && AllHashable(records) && n <= |records|
    ensures Link(records, n) == TailHash(records[..n])
  {
    if n > 0 {
      LinksAgree(records, n - 1);
      assert LinkedAt(records, n - 1);
    }
  }

  ghost predicate Sound(records: seq<Record>, n: nat, o: Options)
    requires n <= |records|
  {
    forall i :: 0 <= i < n ==> !Deserves(records, i, o, SeqGap) && !Deserves(records, i, o, RecordHashMismatch)
  }

  lemma {:induction false} SoundIsLinked(records: seq<Record>, n: nat, o: Options)
    requires n <= |records| && AllHashable(records) && Sound(records, n, o)
    ensures Linked(records[..n]) && Link(records, n) == TailHash(records[..n])
  {
    if n > 0 {
      SoundIsLinked(records, n - 1, o);
      var r := records[n - 1];
      assert !Deserves(records, n - 1, o, SeqGap) && !Deserves(records, n - 1, o, RecordHashMismatch);
      assert Uncountersigned(r) == SealNext(records[..n - 1], r.event, r.hostTs);
      LinkedExtend(records[..n - 1], r);
      assert records[..n - 1] + [r] == records[..n];
    }
  }

  /**
   * Over canonicalizable records, the auditor finds the chain intact exactly when it is linked, that is,
   * exactly when it is what `Ledger.Append` builds from genesis on those bodies.
   */
  lemma IntactIsBuilt(records: seq<Record>, o: Options)
    requires AllHashable(records)
    ensures Intact(ChainIssues(records, o)) <==> Linked(records)
    ensures Intact(ChainIssues(records, o)) <==> Plain(records) == Build(Bodies(records))
  {
    ChainFinds(records, o, SeqGap);
    ChainFinds(records, o, RecordHashMismatch);
    LinkedIsBuilt(records);
    assert records[..|records|] == records;
    if Intact(ChainIssues(records, o)) {
      assert Sound(records, |records|, o);
      SoundIsLinked(records, |records|, o);
    }
    if Linked(records) {
      forall i | 0 <= i < |records|
        ensures !Deserves(records, i, o, SeqGap) && !Deserves(records, i, o, RecordHashMismatch)
      {
        LinksAgree(records, i);
        LinksAgree(records, i + 1);
        assert LinkedAt(records, i);
        assert records[..i + 1][i] == records[i];
      }
    }
  }

  /** The four findings that say a list is not the anchored chain. */
  ghost predicate Unaltered(issues: seq<Issue>) {
    Intact(issues) && !Found(issues, SchemaInvalid) && !Found(issues, DigestMismatch)
  }

  lemma UnalteredIsHashable(presented: seq<Record>, o: Options)
    requires !Found(ChainIssues(presented, o), SchemaInvalid)
    ensures AllHashable(presented)
  {
    ChainFinds(presented, o, SchemaInvalid);
    forall i | 0 <= i < |presented|
      ensures presented[i].event.canonicalizable
    {
      assert !Deserves(presented, i, o, SchemaInvalid);
    }
  }

  /** The anchor is missed exactly where the digests differ. */
  lemma AnchorIsMissed(presented: seq<Record>, o: Options)
    requires Linked(presented) && AllHashable(presented) && o.anchoredDigest.Some?
    ensures Found(ChainIssues(presented, o), DigestMismatch) <==> TailHash(presented) != o.anchoredDigest.value
  {
    AnchorFinds(presented, o);
    LinksAgree(presented, |presented|);
    assert presented[..|presented|] == presented;
  }

  lemma UnalteredIsHonest(honest: seq<Record>, presented: seq<Record>, o: Options)
    requires Linked(honest) && o.anchoredDigest == Some(TailHash(honest)) && Unaltered(ChainIssues(presented, o))
    ensures Plain(presented) == Plain(honest)
  {
    UnalteredIsHashable(presented, o);
    IntactIsBuilt(presented, o);
    AnchorIsMissed(presented, o);
    DigestFixesChain(honest, presented);
  }

  lemma HonestIsUnaltered(presented: seq<Record>, o: Options)
    requires Linked(presented) && AllHashable(presented) && o.anchoredDigest == Some(TailHash(presented))
    ensures Unaltered(ChainIssues(presented, o))
  {
    IntactIsBuilt(presented, o);
    AnchorIsMissed(presented, o);
    ChainFinds(presented, o, SchemaInvalid);
  }

  /**
   * Against an honest ledger's anchored digest, a list of records is reported without any of those four
   * exactly when it is that ledger, countersignatures apart: the same length, and the same body and hashes
   * at every position. So no edit, truncation, extension, reordering or full re-link goes unreported.
   */
  lemma AnchoredMeansUnaltered(honest: seq<Record>, presented: seq<Record>, o: Options)
    requires Linked(honest) && AllHashable(honest)
    requires o.anchoredDigest == Some(TailHash(honest))
    ensures Unaltered(ChainIssues(presented, o)) <==> Plain(presented) == Plain(honest)
  {
    if Unaltered(ChainIssues(presented, o)) {
      UnalteredIsHonest(honest, presented, o);
    }
    if Plain(presented) == Plain(honest) {
      SamePlain(honest, presented);
      HonestIsUnaltered(presented, o);
    }
  }

  lemma SamePlain(honest: seq<Record>, presented: seq<Record>)
    requires Linked(honest) && AllHashable(honest) && Plain(presented) == Plain(honest)
    ensures Linked(presented) && AllHashable(presented) && TailHash(presented) == TailHash(honest)
  {
    LinkedIsBuilt(honest);
    LinkedIsBuilt(presented);
    TailIsPlain(honest);
    TailIsPlain(presented);
    forall i | 0 <= i < |honest|
      ensures presented[i].event == honest[i].event && presented[i].hostTs == honest[i].hostTs
    {
      assert Plain(presented)[i] == Plain(honest)[i];
    }
    assert Bodies(presented) == Bodies(honest);
  }
}
