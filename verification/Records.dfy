/** The values the audit stream is made of: events, hashes, sealed records and the code vocabulary. */
module Records {

  datatype Option<+T> = None | Some(value: T)

  /** Names are compared for equality, and event ids also sorted; an ordered infinite set stands for them. */
  type Id = nat
  type SessionId = nat
  type KeyId = nat
  type LogId = nat
  type Time = int

  /** The largest integer a canonical form can carry exactly. */
  const MAX_SAFE_INTEGER: int := 0x1F_FFFF_FFFF_FFFF

  datatype Outcome = Attempted | Success | Failed | Aborted

  datatype AbortReason = HashMismatch | HostRejected | HostUnavailable | HostUncountersigned | BadHostSignature

  /** The Tier-1 codes a host or a verifier names a finding by. */
  datatype Code =
    | SchemaInvalid
    | ReplayDetected
    | SignatureInvalid
    | L2Unsigned
    | UnknownKey
    | RecordHashMismatch
    | DigestMismatch
    | SeqGap
    | SignerSeqGap
    | OrphanedOutcome
    | UnresolvedAttempt
    | HostSignatureInvalid

  /** The Level-2 members of an event: the key it is signed under, and its place in that key's sequence. */
  datatype Signer = Signer(key: KeyId, number: int)

  /**
   * An event as it travels. `wellFormed` is the rest of the schema, `canonicalizable` is whether its bytes
   * have a canonical form, and `body` is every member not named here (time, target, signature bytes).
   * `signer_seq` is named `number` and a record's `seq` is named `position`.
   * Two events are the same bytes exactly when they are equal, so an event stands for its own digest.
   */
  datatype Event = Event(
    id: Id,
    session: SessionId,
    outcome: Outcome,
    reason: Option<AbortReason>,
    signer: Option<Signer>,
    wellFormed: bool,
    canonicalizable: bool,
    body: nat)

  /** An event of the current version that passes the schema: the members used below are then in range. */
  predicate Valid(e: Event) {
    && e.wellFormed
    && (e.outcome.Aborted? ==> e.reason.Some?)
    && (e.signer.Some? ==> 0 <= e.signer.value.number <= MAX_SAFE_INTEGER)
  }

  /**
   * A hash, as a free term: `Digest` is injective and never `Genesis`, which is all that is asked of the
   * hash function. `Foreign` is any string that is the digest of nothing.
   */
  datatype Hash =
    | Genesis
    | Digest(event: Event, position: int, hostTs: Time, previous: Hash)
    | Foreign(text: nat)

  /** The countersignature members of a record; a stored record may carry only part of them. */
  datatype Triple = Absent | Partial | Full(signature: nat, keyId: KeyId, logId: LogId)

  datatype Record = Record(
    event: Event,
    position: int,
    hostTs: Time,
    previousHash: Hash,
    recordHash: Hash,
    triple: Triple)

  /** What the record hash covers: the same record sealed with and without a countersignature are alike. */
  function Uncountersigned(r: Record): Record {
    r.(triple := Absent)
  }

  /** What a countersignature covers. */
  datatype Payload = Payload(position: int, hostTs: Time, logId: LogId, previousHash: Hash, recordHash: Hash)

  predicate SameOperation(a: Event, b: Event) {
    a.session == b.session && a.id == b.id
  }

  predicate SameNumber(a: Event, b: Event) {
    a.session == b.session && a.signer.Some? && a.signer == b.signer
  }
}
