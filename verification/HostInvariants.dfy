/** What every call keeps true of a host, whatever its collaborators answer. */
module HostInvariants {
  import opened Records
  import opened Ledgers
  import opened Storage
  import opened Hosts
  import opened Chains

  /** The store holds what the host committed, or that and one more record the host could have committed. */
  ghost predicate StoreAgrees(h: Host) {
    if h.config.persistent then
      h.store == h.chain || exists r :: h.store == h.chain + [r] && Continues(h.chain, r)
    else
      h.store == [] && !h.tailUncertain
  }

  ghost predicate AttemptsIndexed(records: seq<Record>, index: map<Id, Record>) {
    && (forall r :: r in records && r.event.outcome.Attempted? ==> r.event.id in index && index[r.event.id] == r)
    && (forall id :: id in index ==> index[id] in records && index[id].event.outcome.Attempted? && index[id].event.id == id)
  }

  ghost predicate EventsIndexed(records: seq<Record>, events: set<Event>) {
    && (forall r :: r in records ==> r.event in events)
    && (forall e :: e in events ==> exists r :: r in records && r.event == e)
  }

  ghost predicate Cleared(s: Session, id: SessionId, records: seq<Record>) {
    forall x :: x in s.accepted ==> AttemptIn(records, id, x)
  }

  ghost predicate SessionsIssued(h: Host) {
    && h.sessions.Keys <= h.issued
    && (forall r :: r in h.chain || r in h.store ==> r.event.session in h.issued)
  }

  ghost predicate Invariant(h: Host) {
    && Sane(h.chain)
    && StoreAgrees(h)
    && AttemptsIndexed(h.chain, h.sealedAttempts)
    && EventsIndexed(h.chain, h.sealedEvents)
    && SessionsIssued(h)
    && AllCleared(h.sessions, h.chain)
  }

  ghost predicate AllCleared(sessions: map<SessionId, Session>, records: seq<Record>) {
    forall id :: id in sessions ==> Cleared(sessions[id], id, records)
  }

  /** A change to what the invariant does not look at. */
  lemma UnseenKeeps(h: Host, h': Host)
    requires Invariant(h)
    requires h' == h.(rejectedIds := h'.rejectedIds, anomalies := h'.anomalies, available := h'.available)
    ensures Invariant(h')
  {
  }

  /** A change to one session that clears nothing. */
  lemma SessionKeeps(h: Host, id: SessionId, s: Session)
    requires Invariant(h) && id in h.sessions && s.accepted == h.sessions[id].accepted
    ensures Invariant(WithSession(h, id, s))
  {
  }

  lemma InitialHolds(config: Config)
    ensures Invariant(Initial(config))
  {
  }

  // ---------------------------------------------------------------------------------------------------
  // The tail.

  lemma LinkedIsPlaced(records: seq<Record>)
    requires Linked(records)
    ensures Placed(records)
  {
    forall i | 0 <= i < |records|
      ensures records[i].position == i
    {
      assert LinkedAt(records, i);
    }
  }

  /** A list whose records are in place, and the same with one more that continues it, have tails that tell them apart. */
  lemma TailsDiffer(chain: seq<Record>, store: seq<Record>)
    requires Placed(chain) && (store == chain || exists r :: store == chain + [r] && Continues(chain, r))
    ensures NextPosition(store) == |store|
    ensures store != [] ==> var tail := store[|store| - 1];
              && (tail.position == |chain| - 1 <==> store == chain)
              && (tail.position == |chain| <==> store != chain)
              && tail.previousHash == (if store == chain then tail.previousHash else TailHash(chain))
    ensures store == [] ==> chain == []
  {
    if store != chain {
      var r :| store == chain + [r] && Continues(chain, r);
      assert store[|store| - 1] == r;
    }
  }

  /** What the repository's tail tells: the two cases of a tail in doubt are told apart, and are all there are. */
  lemma TailTells(h: Host)
    requires Invariant(h) && h.config.persistent
    ensures TailUnchanged(h) <==> h.store == h.chain
    ensures TailContinues(h) <==> h.store != h.chain
    ensures NextPosition(h.store) == |h.store|
  {
    LinkedIsPlaced(h.chain);
    TailsDiffer(h.chain, h.store);
  }

  lemma CommitIndexes(h: Host, r: Record)
    requires AttemptsIndexed(h.chain, h.sealedAttempts) && EventsIndexed(h.chain, h.sealedEvents)
    requires CanFollow(h.chain, r.event)
    ensures AttemptsIndexed(h.chain + [r], Commit(h, r).sealedAttempts)
    ensures EventsIndexed(h.chain + [r], Commit(h, r).sealedEvents)
  {
  }

  /** Committing a record that continues the chain, where the store has it or there is no store. */
  lemma CommitKeeps(h: Host, r: Record, h': Host)
    requires Invariant(h) && Continues(h.chain, r) && r.event.session in h.issued
    requires h' == Commit(h.(store := if h.config.persistent then h.chain + [r] else h.store), r)
    ensures Invariant(h')
  {
    SaneExtend(h.chain, r);
    CommitIndexes(h, r);
    AllClearedExtend(h.sessions, h.chain, r);
    CommitIssued(h, r);
  }

  lemma CommitIssued(h: Host, r: Record)
    requires SessionsIssued(h) && r.event.session in h.issued
    ensures SessionsIssued(h.(chain := h.chain + [r], store := if h.config.persistent then h.chain + [r] else h.store))
  {
  }

  lemma AllClearedExtend(sessions: map<SessionId, Session>, records: seq<Record>, r: Record)
    requires AllCleared(sessions, records)
    ensures AllCleared(sessions, records + [r])
  {
  }

  lemma ClearKeeps(h: Host, e: Event)
    requires Invariant(h) && AttemptIn(h.chain, e.session, e.id)
    ensures Invariant(Clear(h, e))
  {
    if e.session in h.sessions {
      var s := h.sessions[e.session];
      assert Cleared(s.(accepted := s.accepted + {e.id}), e.session, h.chain);
      assert Clear(h, e).sessions.Keys == h.sessions.Keys;
    }
  }

  /** Adopting the record the store has and the host has not. */
  lemma AdoptKeeps(h: Host, r: Record)
    requires Invariant(h) && h.config.persistent && h.store == h.chain + [r] && Continues(h.chain, r)
    ensures Invariant(Adopt(h, r)) && Adopt(h, r).chain == h.store && Adopt(h, r).config == h.config
  {
    assert r in h.store;
    var committed := Commit(h, r);
    CommitKeeps(h, r, committed);
    if r.event.outcome.Attempted? {
      AttemptInExtend(h.chain, r, r.event.session, r.event.id);
      ClearKeeps(committed, r.event);
    }
  }

  lemma SettleKeeps(h: Host, read: Read)
    requires Invariant(h) && h.config.persistent
    ensures Invariant(SettleTail(h, read).0)
    ensures read.Answered? ==> SettleTail(h, read).1.Known? && SettleTail(h, read).0.chain == h.store
  {
    TailTells(h);
    if read.Answered? {
      if h.store != h.chain {
        var r :| h.store == h.chain + [r] && Continues(h.chain, r);
        assert h.store[|h.store| - 1] == r;
        AdoptKeeps(h, r);
        DoubtKeeps(Adopt(h, r), false);
      } else {
        DoubtKeeps(h, false);
      }
    }
  }

  lemma ChainKnownKeeps(h: Host, read: Read)
    requires Invariant(h)
    ensures Invariant(ChainKnown(h, read).0)
  {
    if h.tailUncertain && h.config.persistent {
      SettleKeeps(h, read);
    }
  }

  // ---------------------------------------------------------------------------------------------------
  // Sealing.

  lemma PersistKeeps(h: Host, r: Record, write: Write)
    requires Invariant(h) && Continues(h.chain, r) && r.event.session in h.issued
    ensures var (h', seal) := Persist(h, r, write);
            && Invariant(h')
            && (seal.SealedAs? ==> h'.chain == h.chain + [r] && seal.record == r)
            && (!seal.SealedAs? ==> h'.chain == h.chain)
  {
    assert r.position == |h.chain|;
    if !h.config.persistent {
      CommitKeeps(h, r, Commit(h, r));
    } else {
      TailTells(h);
      if h.store == h.chain {
        if write.Stored? {
          CommitKeeps(h, r, Persist(h, r, write).0);
        } else if write.FailedLanded? || write.ThrewLanded? {
          LandedKeeps(h, r, Persist(h, r, write).0);
        } else {
          DoubtKeeps(h, true);
        }
      } else {
        DoubtKeeps(h, true);
      }
    }
  }

  lemma DoubtKeeps(h: Host, uncertain: bool)
    requires Invariant(h) && h.config.persistent
    ensures Invariant(h.(tailUncertain := uncertain))
  {
  }

  lemma LandedKeeps(h: Host, r: Record, h': Host)
    requires Invariant(h) && h.config.persistent && h.store == h.chain
    requires Continues(h.chain, r) && r.event.session in h.issued
    requires h' == h.(store := h.store + [r], tailUncertain := h'.tailUncertain)
    ensures Invariant(h')
  {
  }

  lemma SealKeeps(h: Host, e: Event, env: Env)
    requires Invariant(h) && CanFollow(h.chain, e) && e.session in h.sessions
    ensures var (h', seal) := SealEvent(h, e, env);
            && Invariant(h')
            && (seal.SealedAs? ==> h'.chain == h.chain + [seal.record] && seal.record.event == e)
            && (!seal.SealedAs? ==> h'.chain == h.chain)
  {
    var r := Prepared(h, e, env);
    if r.Some? {
      assert Uncountersigned(r.value) == SealNext(h.chain, e, env.now);
      PersistKeeps(h, r.value, env.write);
    }
  }

  // ---------------------------------------------------------------------------------------------------
  // The calls.

  lemma DecideKeeps(h: Host, e: Event)
    requires Invariant(h) && e.session in h.sessions
    ensures Invariant(Decide(h, e))
  {
  }

  lemma FlagKeeps(h: Host, id: Id, kind: Code)
    requires Invariant(h)
    ensures Invariant(Flag(h, id, kind))
  {
  }

  lemma RefuseKeeps(h: Host, e: Event)
    requires Invariant(h) && e.session in h.sessions
    ensures Invariant(RefuseId(h, e, ReplayDetected))
  {
  }

  lemma ReceiveKeeps(h: Host, e: Event)
    requires Invariant(h) && e.session in h.sessions && e.signer.Some?
    ensures Invariant(Receive(h, e))
  {
    var s := h.sessions[e.session];
    var raised := s.(received := s.received[e.signer.value.key := e.signer.value.number]);
    FlagKeeps(h, e.id, SignerSeqGap);
    SessionKeeps(h, e.session, raised);
    SessionKeeps(Flag(h, e.id, SignerSeqGap), e.session, raised);
  }

  lemma VerifyKeeps(h: Host, e: Event, verdict: Verdict)
    requires Invariant(h) && e.session in h.sessions
    ensures var h' := VerifySignature(h, e, verdict).0; Invariant(h') && h'.chain == h.chain && e.session in h'.sessions
  {
    if h.config.level.L2? {
      if e.signer.None? || verdict.Refuted? {
        FlagKeeps(h, e.id, SignatureInvalid);
      } else if verdict.Verifies? {
        ReceiveKeeps(h, e);
      }
    }
  }

  lemma SealAttemptKeeps(h: Host, e: Event, env: Env)
    requires Invariant(h) && e.session in h.sessions
    requires Valid(e) && e.canonicalizable && e.outcome.Attempted?
    ensures Invariant(SealAttempt(h, e, env).0)
  {
    if e.id in h.sealedAttempts {
      if h.sealedAttempts[e.id].event == e {
        ClearKeeps(h, e);
      } else {
        RefuseKeeps(h, e);
      }
    } else if e.id in h.sessions[e.session].terminal || Replayed(h, e) {
      RefuseKeeps(h, e);
    } else if h.available {
      SealKeeps(h, e, env);
      var (h', seal) := SealEvent(h, e, env);
      if seal.SealedAs? {
        DecideKeeps(h', e);
        AttemptInExtend(h.chain, seal.record, e.session, e.id);
        ClearKeeps(Decide(h', e), e);
      }
    }
  }

  lemma DecideAttemptKeeps(h: Host, e: Event, expected: Option<SessionId>, env: Env)
    requires Invariant(h)
    ensures Invariant(DecideAttempt(h, e, expected, env).0)
  {
    var (admitted, refused) := Admit(h, e, expected, true);
    if refused.None? {
      VerifyKeeps(h, e, env.verdict);
      var (verified, checked) := VerifySignature(h, e, env.verdict);
      if checked.Passed? {
        SealAttemptKeeps(verified, e, env);
      } else if checked.Refuses? {
        UnseenKeeps(verified, verified.(rejectedIds := verified.rejectedIds + {e.id}));
      }
    } else {
      FlagKeeps(h, e.id, refused.value);
    }
  }

  lemma AttemptKeeps(h: Host, e: Event, expected: Option<SessionId>, late: bool, env: Env)
    requires Invariant(h)
    ensures Invariant(HandleAttempt(h, e, expected, late, env).0)
  {
    if !late {
      ChainKnownKeeps(h, env.read);
      DecideAttemptKeeps(ChainKnown(h, env.read).0, e, expected, env);
    }
  }

  lemma ConcludeKeeps(h: Host, e: Event)
    requires Invariant(h) && e.session in h.sessions
    ensures Invariant(Conclude(h, e))
  {
  }

  lemma SealOutcomeKeeps(h: Host, e: Event, env: Env)
    requires Invariant(h) && e.session in h.sessions
    requires Valid(e) && e.canonicalizable && !e.outcome.Attempted?
    ensures Invariant(SealOutcome(h, e, env).0)
  {
    var s := h.sessions[e.session];
    if e in h.sealedEvents || (e.id in s.terminal && s.terminal[e.id] == e) {
    } else if e.id in s.terminal {
      DecideKeeps(h, e);
      FlagKeeps(Decide(h, e), e.id, ReplayDetected);
    } else if Replayed(h, e) {
      FlagKeeps(h, e.id, ReplayDetected);
    } else if e.id !in s.accepted && !e.outcome.Aborted? {
      DecideKeeps(h, e);
      FlagKeeps(Decide(h, e), e.id, OrphanedOutcome);
    } else if h.available {
      assert CanFollow(h.chain, e);
      SealKeeps(h, e, env);
      var (h', seal) := SealEvent(h, e, env);
      if seal.SealedAs? {
        DecideKeeps(h', e);
        ConcludeKeeps(Decide(h', e), e);
      }
    }
  }

  lemma DecideOutcomeKeeps(h: Host, e: Event, expected: Option<SessionId>, env: Env)
    requires Invariant(h)
    ensures Invariant(DecideOutcome(h, e, expected, env).0)
  {
    var (admitted, refused) := Admit(h, e, expected, false);
    if refused.None? {
      VerifyKeeps(h, e, env.verdict);
      var (verified, checked) := VerifySignature(h, e, env.verdict);
      if checked.Passed? {
        SealOutcomeKeeps(verified, e, env);
      }
    } else {
      FlagKeeps(h, e.id, refused.value);
    }
  }

  lemma OutcomeKeeps(h: Host, item: Option<Event>, expected: Option<SessionId>, env: Env)
    requires Invariant(h)
    ensures Invariant(HandleOutcome(h, item, expected, env).0)
  {
    if item.Some? {
      ChainKnownKeeps(h, env.read);
      DecideOutcomeKeeps(ChainKnown(h, env.read).0, item.value, expected, env);
    } else {
      FlagKeeps(h, UNKNOWN_ID, SchemaInvalid);
    }
  }

  // ---------------------------------------------------------------------------------------------------
  // Sessions and restart.

  lemma OpenKeeps(h: Host, id: SessionId)
    requires Invariant(h)
    ensures Invariant(OpenSession(h, id).0)
  {
  }

  lemma CloseKeeps(h: Host, id: SessionId)
    requires Invariant(h)
    ensures Invariant(CloseSession(h, id))
  {
  }

  /** A session rebuilt from the ledger cleared exactly the attempts sealed in it. */
  lemma {:induction false} RestoredClears(id: SessionId, records: seq<Record>, x: Id)
    ensures x in Restored(id, records).accepted <==> AttemptIn(records, id, x)
  {
    if records != [] {
      var n := |records| - 1;
      RestoredClears(id, records[..n], x);
      AttemptInExtend(records[..n], records[n], id, x);
      assert records == records[..n] + [records[n]];
    }
  }

  ghost predicate Remembered(h: Host, h': Host, records: seq<Record>) {
    && AttemptsIndexed(records, h'.sealedAttempts) && EventsIndexed(records, h'.sealedEvents)
    && h' == h.(sealedAttempts := h'.sealedAttempts, sealedEvents := h'.sealedEvents, issued := h'.issued)
    && h.issued <= h'.issued
    && (forall r :: r in records ==> r.event.session in h'.issued)
  }

  lemma RememberedOnce(h: Host, before: Host, records: seq<Record>, r: Record)
    requires UniqueAttempts(records + [r]) && Remembered(h, before, records)
    ensures var remembered := Remember(before, r);
            Remembered(h, remembered.(issued := remembered.issued + {r.event.session}), records + [r])
  {
    IndexNext(records, r, before);
  }

  lemma {:induction false} RememberAllIndexes(h: Host, records: seq<Record>)
    requires UniqueAttempts(records) && h.sealedAttempts == map[] && h.sealedEvents == {}
    ensures Remembered(h, RememberAll(h, records), records)
  {
    if records != [] {
      var n := |records| - 1;
      assert records == records[..n] + [records[n]];
      RememberAllIndexes(h, records[..n]);
      RememberedOnce(h, RememberAll(h, records[..n]), records[..n], records[n]);
    }
  }

  lemma IndexNext(records: seq<Record>, r: Record, h: Host)
    requires UniqueAttempts(records + [r])
    requires AttemptsIndexed(records, h.sealedAttempts) && EventsIndexed(records, h.sealedEvents)
    ensures AttemptsIndexed(records + [r], Remember(h, r).sealedAttempts)
    ensures EventsIndexed(records + [r], Remember(h, r).sealedEvents)
  {
    var all := records + [r];
    assert forall x :: x in all <==> x in records || x == r;
    forall x | x in records && x.event.outcome.Attempted? && r.event.outcome.Attempted?
      ensures x.event.id != r.event.id
    {
      var i :| 0 <= i < |records| && records[i] == x;
      assert all[i] == x && all[|records|] == r;
    }
  }

  lemma ReopenedOnce(h: Host, before: Host, entry: Reopened, ids: set<SessionId>)
    requires Invariant(before) && before == h.(issued := before.issued, sessions := before.sessions)
    requires before.sessions.Keys == h.sessions.Keys + ids
    requires forall id :: id in before.sessions && id !in ids ==> id in h.sessions && before.sessions[id] == h.sessions[id]
    ensures var h' := before.(issued := before.issued + {entry.session},
                              sessions := before.sessions[entry.session := Reopen(entry, h.chain)]);
            && Invariant(h')
            && h' == h.(issued := h'.issued, sessions := h'.sessions)
            && h'.sessions.Keys == h.sessions.Keys + (ids + {entry.session})
            && (forall id :: id in h'.sessions && id !in ids + {entry.session} ==>
                  id in h.sessions && h'.sessions[id] == h.sessions[id])
  {
    ReopenKeeps(before, entry);
  }

  lemma {:induction false} ReopenAllKeeps(h: Host, open: seq<Reopened>)
    requires Invariant(h)
    ensures var h' := ReopenAll(h, open, h.chain);
            && Invariant(h')
            && h' == h.(issued := h'.issued, sessions := h'.sessions)
            && h'.sessions.Keys == h.sessions.Keys + OpenIds(open)
            && (forall id :: id in h'.sessions && id !in OpenIds(open) ==> id in h.sessions && h'.sessions[id] == h.sessions[id])
  {
    if open != [] {
      var n := |open| - 1;
      ReopenAllKeeps(h, open[..n]);
      OpenIdsNext(open);
      ReopenedOnce(h, ReopenAll(h, open[..n], h.chain), open[n], OpenIds(open[..n]));
    }
  }

  lemma ReopenKeeps(h: Host, entry: Reopened)
    requires Invariant(h)
    ensures Invariant(h.(issued := h.issued + {entry.session},
                         sessions := h.sessions[entry.session := Reopen(entry, h.chain)]))
  {
    forall x | x in Reopen(entry, h.chain).accepted
      ensures AttemptIn(h.chain, entry.session, x)
    {
      RestoredClears(entry.session, h.chain, x);
    }
  }

  lemma OpenIdsNext(open: seq<Reopened>)
    requires open != []
    ensures OpenIds(open) == OpenIds(open[..|open| - 1]) + {open[|open| - 1].session}
  {
  }

  ghost function Loaded(config: Config, store: seq<Record>): Host {
    RememberAll(Initial(config).(chain := store, store := store), store)
  }

  lemma LoadedHolds(config: Config, store: seq<Record>)
    requires config.persistent && Sane(store)
    ensures Invariant(Loaded(config, store))
    ensures Loaded(config, store).chain == store && Loaded(config, store).store == store
  {
    RememberAllIndexes(Initial(config).(chain := store, store := store), store);
  }

  lemma ResumeHolds(config: Config, store: seq<Record>, open: seq<Reopened>)
    requires config.persistent && Sane(store)
    ensures Invariant(Resume(config, store, open))
    ensures Resume(config, store, open).chain == store && Resume(config, store, open).store == store
  {
    LoadedHolds(config, store);
    var loaded := Loaded(config, store);
    ReopenAllKeeps(loaded, open);
    var reopened := ReopenAll(loaded, open, store);
    UnseenKeeps(reopened, Resume(config, store, open));
  }

  lemma StoreIsSane(h: Host)
    requires Invariant(h) && h.config.persistent
    ensures Sane(h.store)
  {
    if h.store != h.chain {
      var r :| h.store == h.chain + [r] && Continues(h.chain, r);
      SaneExtend(h.chain, r);
    }
  }

  // ---------------------------------------------------------------------------------------------------
  // Runs.

  lemma StepKeeps(h: Host, op: Op)
    requires Invariant(h)
    ensures Invariant(Step(h, op))
  {
    match op
    case Attempt(e, expected, late, env) => AttemptKeeps(h, e, expected, late, env);
    case Outcome(item, expected, env) => OutcomeKeeps(h, item, expected, env);
    case Open(id) => OpenKeeps(h, id);
    case Close(id) => CloseKeeps(h, id);
    case SetAvailable(available) => UnseenKeeps(h, Step(h, op));
    case Restart(open) =>
      if h.config.persistent {
        StoreIsSane(h);
        ResumeHolds(h.config, h.store, open);
      }
  }

  /** Every reachable state of a host satisfies the invariant. */
  lemma {:induction false} RunKeeps(config: Config, ops: seq<Op>)
    ensures Invariant(Run(Initial(config), ops))
  {
    if ops == [] {
      InitialHolds(config);
    } else {
      RunKeeps(config, ops[..|ops| - 1]);
      StepKeeps(Run(Initial(config), ops[..|ops| - 1]), ops[|ops| - 1]);
    }
  }
}
