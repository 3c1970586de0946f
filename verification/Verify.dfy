/** The auditor: recompute a list of sealed records, and report what does not hold of it. */
module Verify {
  import opened Records
  import opened Ledgers
  import opened Accounting

  /** A single finding; `position` is absent for one about the whole ledger. */
  datatype Issue = Issue(position: Option<int>, kind: Code)

  datatype Options = Options(
    anchoredDigest: Option<Hash>,
    countersignatureRequired: bool,
    countersignatureChecker: Option<(KeyId, nat, Payload) -> bool>,
    signatureChecker: Option<Event -> bool>)

  datatype Report = Report(
    ok: bool,
    count: nat,
    computedDigest: Hash,
    issues: seq<Issue>,
    countersignatureUnchecked: bool,
    signatureUnchecked: bool,
    complete: bool)

  function PayloadOf(r: Record): Payload
    requires r.triple.Full?
  {
    Payload(r.position, r.hostTs, r.triple.logId, r.previousHash, r.recordHash)
  }

  /** The link the next record has to name: recomputed, except across a record that has no hash. */
  function Link(records: seq<Record>, i: nat): Hash
    requires i <= |records|
  {
    if i == 0 then Genesis else
      var r := records[i - 1];
      if r.event.canonicalizable then Digest(r.event, r.position, r.hostTs, Link(records, i - 1)) else r.recordHash
  }

  function EventsOf(records: seq<Record>): (events: seq<Event>)
    ensures |events| == |records|
    ensures forall i :: 0 <= i < |records| ==> events[i] == records[i].event
  {
    seq(|records|, i requires 0 <= i < |records| => records[i].event)
  }

  // ---------------------------------------------------------------------------------------------------
  // What each check means.

  /** A terminal outcome that is no refusal, with no attempt of its operation sealed before it. */
  predicate Orphaned(records: seq<Record>, i: nat)
    requires i < |records|
  {
    && (records[i].event.outcome.Success? || records[i].event.outcome.Failed?)
    && !exists j :: 0 <= j < i && records[j].event.canonicalizable && records[j].event.outcome.Attempted?
                    && SameOperation(records[j].event, records[i].event)
  }

  /** A `signer_seq` that an earlier record of the same key and session already took. */
  predicate Renumbered(records: seq<Record>, i: nat)
    requires i < |records|
  {
    exists j :: 0 <= j < i && records[j].event.canonicalizable && SameNumber(records[j].event, records[i].event)
  }

  predicate BadCountersignature(r: Record, hashable: bool, o: Options) {
    match r.triple
    case Absent => o.countersignatureRequired
    case Partial => true
    case Full(signature, keyId, _) =>
      hashable && o.countersignatureChecker.Some? && !o.countersignatureChecker.value(keyId, signature, PayloadOf(r))
  }

  predicate BadSignature(r: Record, o: Options) {
    r.event.signer.Some? && o.signatureChecker.Some? && !o.signatureChecker.value(r.event)
  }

  function When(found: bool, r: Record, kind: Code): seq<Issue> {
    if found then [Issue(Some(r.position), kind)] else []
  }

  function RecordIssues(records: seq<Record>, i: nat, o: Options): seq<Issue>
    requires i < |records|
  {
    var r := records[i];
    When(r.position != i, r, SeqGap) +
    if !r.event.canonicalizable then
      [Issue(Some(r.position), SchemaInvalid)] + When(BadCountersignature(r, false, o), r, HostSignatureInvalid)
    else
      When(r.previousHash != Link(records, i), r, RecordHashMismatch) +
      When(r.recordHash != Link(records, i + 1), r, RecordHashMismatch) +
      When(Orphaned(records, i), r, OrphanedOutcome) +
      When(Renumbered(records, i), r, ReplayDetected) +
      When(BadSignature(r, o), r, SignatureInvalid) +
      When(BadCountersignature(r, true, o), r, HostSignatureInvalid)
  }

  function IssuesBefore(records: seq<Record>, n: nat, o: Options): seq<Issue>
    requires n <= |records|
  {
    if n == 0 then [] else IssuesBefore(records, n - 1, o) + RecordIssues(records, n - 1, o)
  }

  function GapIssues(gaps: seq<Unaccounted>): (issues: seq<Issue>)
    ensures |issues| == |gaps|
  {
    seq(|gaps|, _ => Issue(None, SignerSeqGap))
  }

  ghost function Gaps(records: seq<Record>): seq<Unaccounted> {
    Accounting.Report(EventsOf(records), Groups(EventsOf(records)))
  }

  ghost function ChainIssues(records: seq<Record>, o: Options): seq<Issue> {
    IssuesBefore(records, |records|, o) + GapIssues(Gaps(records)) + AnchorIssues(records, o)
  }

  predicate OffAnchor(records: seq<Record>, o: Options) {
    o.anchoredDigest.Some? && o.anchoredDigest.value != Link(records, |records|)
  }

  function AnchorIssues(records: seq<Record>, o: Options): seq<Issue> {
    if OffAnchor(records, o) then [Issue(None, DigestMismatch)] else []
  }

  ghost predicate CountersignatureUnchecked(records: seq<Record>, n: nat, o: Options)
    requires n <= |records|
  {
    o.countersignatureChecker.None? &&
    exists i :: 0 <= i < n && records[i].event.canonicalizable && records[i].triple.Full?
  }

  ghost predicate SignatureUnchecked(records: seq<Record>, n: nat, o: Options)
    requires n <= |records|
  {
    o.signatureChecker.None? &&
    exists i :: 0 <= i < n && records[i].event.canonicalizable && records[i].event.signer.Some?
  }

  /** The positions a schema finding is already reported at. */
  function SchemaReported(issues: seq<Issue>): set<Option<int>> {
    set i | 0 <= i < |issues| && issues[i].kind.SchemaInvalid? :: issues[i].position
  }

  function SchemaIssues(records: seq<Record>, n: nat, reported: set<Option<int>>): seq<Issue>
    requires n <= |records|
  {
    if n == 0 then [] else
      var r := records[n - 1];
      SchemaIssues(records, n - 1, reported) +
      When(!Valid(r.event) && Some(r.position) !in reported, r, SchemaInvalid)
  }

  ghost function LedgerIssues(records: seq<Record>, o: Options): seq<Issue> {
    ChainIssues(records, o) + SchemaIssues(records, |records|, SchemaReported(ChainIssues(records, o)))
  }

  // ---------------------------------------------------------------------------------------------------
  // The auditor itself.

  /** The countersignature of one record, over a hash only where it was recomputed. */
  method CheckCountersignature(r: Record, hashable: bool, o: Options) returns (issues: seq<Issue>, unchecked: bool)
    ensures issues == When(BadCountersignature(r, hashable, o), r, HostSignatureInvalid)
    ensures unchecked == (hashable && r.triple.Full? && o.countersignatureChecker.None?)
  {
    issues, unchecked := [], false;
    if r.triple.Absent? && o.countersignatureRequired {
      issues := [Issue(Some(r.position), HostSignatureInvalid)];
    } else if r.triple.Partial? {
      issues := [Issue(Some(r.position), HostSignatureInvalid)];
    } else if hashable && r.triple.Full? {
      if o.countersignatureChecker.None? {
        unchecked := true;
      } else if !o.countersignatureChecker.value(r.triple.keyId, r.triple.signature, PayloadOf(r)) {
        issues := [Issue(Some(r.position), HostSignatureInvalid)];
      }
    }
  }

  /** `attempted` holds the operations attempted in the first `n` records that could be hashed. */
  ghost predicate AttemptedBefore(attempted: set<(SessionId, Id)>, records: seq<Record>, n: nat)
    requires n <= |records|
  {
    forall s, id :: (s, id) in attempted <==>
      exists j :: 0 <= j < n && records[j].event.canonicalizable && records[j].event.outcome.Attempted?
                  && records[j].event.session == s && records[j].event.id == id
  }

  ghost predicate NumberedBefore(numbered: map<(SessionId, Signer), int>, records: seq<Record>, n: nat)
    requires n <= |records|
  {
    forall s, signer :: (s, signer) in numbered <==>
      exists j :: 0 <= j < n && records[j].event.canonicalizable
                  && records[j].event.session == s && records[j].event.signer == Some(signer)
  }

  /** One record that has a hash: its link, its own hash, its operation, its number, and its signatures. */
  method CheckRecord(records: seq<Record>, index: nat, attempted: set<(SessionId, Id)>,
                     numbered: map<(SessionId, Signer), int>, prevRecomputed: Hash, o: Options)
    returns (found: seq<Issue>, attempted': set<(SessionId, Id)>, numbered': map<(SessionId, Signer), int>,
             recomputed: Hash, signatureUnchecked: bool, countersignatureUnchecked: bool)
    requires index < |records| && records[index].event.canonicalizable
    requires AttemptedBefore(attempted, records, index) && NumberedBefore(numbered, records, index)
    requires prevRecomputed == Link(records, index)
    ensures found == RecordIssues(records, index, o)
    ensures AttemptedBefore(attempted', records, index + 1) && NumberedBefore(numbered', records, index + 1)
    ensures recomputed == Link(records, index + 1)
    ensures signatureUnchecked == (records[index].event.signer.Some? && o.signatureChecker.None?)
    ensures countersignatureUnchecked == (records[index].triple.Full? && o.countersignatureChecker.None?)
  {
    var r := records[index];
    var e := r.event;
    recomputed := Digest(e, r.position, r.hostTs, prevRecomputed);
    attempted', numbered' := attempted, numbered;
    var orphaned, renumbered, badSignature := false, false, false;
    AttemptedNext(attempted, records, index);
    if e.outcome.Attempted? {
      attempted' := attempted + {(e.session, e.id)};
    } else if (e.session, e.id) !in attempted && !e.outcome.Aborted? {
      orphaned := true;
    }
    if e.signer.Some? {
      NumberedNext(numbered, records, index);
      if (e.session, e.signer.value) !in numbered {
        numbered' := numbered[(e.session, e.signer.value) := r.position];
      } else {
        renumbered := true;
      }
    } else {
      UnnumberedNext(numbered, records, index);
    }
    signatureUnchecked := e.signer.Some? && o.signatureChecker.None?;
    if e.signer.Some? && !signatureUnchecked && !o.signatureChecker.value(e) {
      badSignature := true;
    }
    var bad;
    bad, countersignatureUnchecked := CheckCountersignature(r, true, o);
    assert orphaned == Orphaned(records, index) && renumbered == Renumbered(records, index);
    found := When(r.position != index, r, SeqGap) +
             (When(r.previousHash != prevRecomputed, r, RecordHashMismatch) +
              When(r.recordHash != recomputed, r, RecordHashMismatch) +
              When(orphaned, r, OrphanedOutcome) +
              When(renumbered, r, ReplayDetected) +
              When(badSignature, r, SignatureInvalid) +
              bad);
  }

  /** Chain integrity, correlation, numbering and signatures of a list of records. */
  method VerifyChain(records: seq<Record>, o: Options) returns (report: Report)
    ensures report.issues == ChainIssues(records, o)
    ensures report.count == |records| && report.computedDigest == Link(records, |records|)
    ensures report.countersignatureUnchecked == CountersignatureUnchecked(records, |records|, o)
    ensures report.signatureUnchecked == SignatureUnchecked(records, |records|, o)
    ensures report.ok <==> report.issues == []
    ensures report.complete <==> report.ok && !report.countersignatureUnchecked && !report.signatureUnchecked
  {
    var issues, digest, unsigned, uncountersigned := ScanRecords(records, o);
    var gaps := UnaccountedSignerSeq(EventsOf(records));
    issues := issues + GapIssues(gaps);
    if o.anchoredDigest.Some? && o.anchoredDigest.value != digest {
      issues := issues + [Issue(None, DigestMismatch)];
    }
    report := Report(issues == [], |records|, digest, issues, uncountersigned, unsigned,
                     issues == [] && !uncountersigned && !unsigned);
  }

  /** The loop over the records, in chain order. */
  method ScanRecords(records: seq<Record>, o: Options)
    returns (issues: seq<Issue>, prevRecomputed: Hash, signatureUnchecked: bool, countersignatureUnchecked: bool)
    ensures issues == IssuesBefore(records, |records|, o)
    ensures prevRecomputed == Link(records, |records|)
    ensures signatureUnchecked == SignatureUnchecked(records, |records|, o)
    ensures countersignatureUnchecked == CountersignatureUnchecked(records, |records|, o)
  {
    issues := [];
    var attempted: set<(SessionId, Id)> := {};
    var numbered: map<(SessionId, Signer), int> := map[];
    prevRecomputed := Genesis;
    signatureUnchecked, countersignatureUnchecked := false, false;
    var index := 0;
    while index < |records|
      invariant 0 <= index <= |records|
      invariant issues == IssuesBefore(records, index, o)
      invariant AttemptedBefore(attempted, records, index)
      invariant NumberedBefore(numbered, records, index)
      invariant prevRecomputed == Link(records, index)
      invariant countersignatureUnchecked == CountersignatureUnchecked(records, index, o)
      invariant signatureUnchecked == SignatureUnchecked(records, index, o)
    {
      var r := records[index];
      var found: seq<Issue>;
      if !r.event.canonicalizable {
        var bad, _ := CheckCountersignature(r, false, o);
        found := When(r.position != index, r, SeqGap) + ([Issue(Some(r.position), SchemaInvalid)] + bad);
        prevRecomputed := r.recordHash;
        Skipped(attempted, numbered, records, index);
      } else {
        var unsigned, uncountersigned;
        found, attempted, numbered, prevRecomputed, unsigned, uncountersigned :=
          CheckRecord(records, index, attempted, numbered, prevRecomputed, o);
        signatureUnchecked := signatureUnchecked || unsigned;
        countersignatureUnchecked := countersignatureUnchecked || uncountersigned;
      }
      issues := issues + found;
      UncheckedNext(records, index, o);
      index := index + 1;
    }
  }

  /** Chain integrity, and the schema of every event. */
  method VerifyLedger(records: seq<Record>, o: Options) returns (report: Report)
    ensures report.issues == LedgerIssues(records, o)
    ensures report.ok <==> report.issues == []
    ensures report.count == |records| && report.computedDigest == Link(records, |records|)
    ensures report.complete <==> report.ok && !CountersignatureUnchecked(records, |records|, o)
                                 && !SignatureUnchecked(records, |records|, o)
  {
    report := VerifyChain(records, o);
    var schemaIssues := SchemaScan(records, SchemaReported(report.issues));
    if schemaIssues != [] {
      report := report.(ok := false, issues := report.issues + schemaIssues, complete := false);
    }
  }

  method SchemaScan(records: seq<Record>, reported: set<Option<int>>) returns (issues: seq<Issue>)
    ensures issues == SchemaIssues(records, |records|, reported)
  {
    issues := [];
    var i := 0;
    while i < |records|
      invariant 0 <= i <= |records|
      invariant issues == SchemaIssues(records, i, reported)
    {
      if !Valid(records[i].event) && Some(records[i].position) !in reported {
        issues := issues + [Issue(Some(records[i].position), SchemaInvalid)];
      }
      i := i + 1;
    }
  }

  lemma AttemptedNext(attempted: set<(SessionId, Id)>, records: seq<Record>, i: nat)
    requires i < |records| && AttemptedBefore(attempted, records, i) && records[i].event.canonicalizable
    ensures var e := records[i].event;
            && AttemptedBefore(if e.outcome.Attempted? then attempted + {(e.session, e.id)} else attempted, records, i + 1)
            && (Orphaned(records, i) <==> !e.outcome.Attempted? && !e.outcome.Aborted? && (e.session, e.id) !in attempted)
  {
  }

  lemma NumberedNext(numbered: map<(SessionId, Signer), int>, records: seq<Record>, i: nat)
    requires i < |records| && NumberedBefore(numbered, records, i) && records[i].event.canonicalizable
    requires records[i].event.signer.Some?
    ensures var e := records[i].event;
            && (Renumbered(records, i) <==> (e.session, e.signer.value) in numbered)
            && ((e.session, e.signer.value) in numbered ==> NumberedBefore(numbered, records, i + 1))
            && NumberedBefore(numbered[(e.session, e.signer.value) := records[i].position], records, i + 1)
  {
  }

  lemma UnnumberedNext(numbered: map<(SessionId, Signer), int>, records: seq<Record>, i: nat)
    requires i < |records| && NumberedBefore(numbered, records, i) && records[i].event.signer.None?
    ensures !Renumbered(records, i) && NumberedBefore(numbered, records, i + 1)
  {
  }

  lemma Skipped(attempted: set<(SessionId, Id)>, numbered: map<(SessionId, Signer), int>, records: seq<Record>, i: nat)
    requires i < |records| && !records[i].event.canonicalizable
    requires AttemptedBefore(attempted, records, i) && NumberedBefore(numbered, records, i)
    ensures AttemptedBefore(attempted, records, i + 1) && NumberedBefore(numbered, records, i + 1)
  {
  }

  lemma UncheckedNext(records: seq<Record>, i: nat, o: Options)
    requires i < |records|
    ensures CountersignatureUnchecked(records, i + 1, o) ==
            (CountersignatureUnchecked(records, i, o) ||
             (o.countersignatureChecker.None? && records[i].event.canonicalizable && records[i].triple.Full?))
    ensures SignatureUnchecked(records, i + 1, o) ==
            (SignatureUnchecked(records, i, o) ||
             (o.signatureChecker.None? && records[i].event.canonicalizable && records[i].event.signer.Some?))
  {
  }
}
