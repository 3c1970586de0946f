/** Runs on which a restart shows: what it flags that a close had not, and a session id it hands out again. */
module RestartRuns {
  import opened Records
  import opened Hosts
  import opened Chains
  import opened HostInvariants
  import opened HostTidiness
  import opened Persistence
  import opened Restarts
  import opened Adoption

  /** A session is opened, its attempt's append fails although the record landed, and it is closed. */
  const CLOSED_IN_DOUBT: seq<Op> := [Open(7), REPLAYING_RUN[1], Close(7)]

  lemma RunsInDoubt()
    ensures var h2 := Run(Initial(PLAIN_L2), CLOSED_IN_DOUBT[..2]);
            && h2.sessions.Keys == {7} && h2.sessions[7].accepted == {} && h2.anomalies == [] && h2.chain == []
            && |h2.store| == 1 && h2.store[0].event == SignedAttempt(1)
  {
    var ops := CLOSED_IN_DOUBT;
    assert ops[..0] == [];
    RunMoves(PLAIN_L2, ops, 0);
    RunMoves(PLAIN_L2, ops, 1);
    LandedAttempt(Run(Initial(PLAIN_L2), ops[..1]));
  }

  /** The attempt finds the tail known, and no other call settles it. */
  lemma NothingIsAdopted()
    ensures NeverAdopts(PLAIN_L2, CLOSED_IN_DOUBT)
  {
    var ops := CLOSED_IN_DOUBT;
    assert ops[..0] == [];
    RunMoves(PLAIN_L2, ops, 0);
    assert !Adopts(Run(Initial(PLAIN_L2), ops[..1]), ops[1]);
  }

  /** The close flags nothing, for it knows of no attempt; the resume finds one in the store, and flags it. */
  lemma ResumeFlagsMore()
    ensures NeverAdopts(PLAIN_L2, CLOSED_IN_DOUBT)
    ensures !NothingWaits(Run(Initial(PLAIN_L2), CLOSED_IN_DOUBT[..2]), 7)
    ensures var h := Run(Initial(PLAIN_L2), CLOSED_IN_DOUBT);
            && h.anomalies == [] && h.sessions == map[]
            && Resume(PLAIN_L2, h.store, []).anomalies == [Anomaly(1, UnresolvedAttempt)]
  {
    RunsInDoubt();
    var h2 := Run(Initial(PLAIN_L2), CLOSED_IN_DOUBT[..2]);
    RunMoves(PLAIN_L2, CLOSED_IN_DOUBT, 2);
    assert CLOSED_IN_DOUBT[..3] == CLOSED_IN_DOUBT;
    ClosesQuietly(h2);
    ResumeFlagsOne(h2.store);
    NothingIsAdopted();
  }

  lemma ClosesQuietly(h: Host)
    requires h.sessions.Keys == {7} && h.sessions[7].accepted == {} && h.anomalies == []
    ensures CloseSession(h, 7).anomalies == [] && CloseSession(h, 7).sessions == map[] && CloseSession(h, 7).store == h.store
  {
    assert h.sessions[7].accepted - h.sessions[7].terminal.Keys == {};
  }

  lemma ResumeFlagsOne(store: seq<Record>)
    requires |store| == 1 && store[0].event == SignedAttempt(1)
    ensures Resume(PLAIN_L2, store, []).anomalies == [Anomaly(1, UnresolvedAttempt)]
  {
    var empty := Initial(PLAIN_L2).(chain := store, store := store);
    assert store[..0] == [] && RememberAll(empty, []) == empty;
    assert RememberAll(empty, store).anomalies == [];
    assert OpenIds([]) == {};
    assert Unresolved(store[..0], {}) == [];
    assert Unresolved(store, {}) == [Operation(7, 1)];
    assert IdsOf([Operation(7, 1)]) == [1];
  }

  const ENDED_EMPTY: seq<Op> := [Open(7), Close(7)]

  lemma EndedEmpty(config: Config)
    ensures var h := Run(Initial(config), ENDED_EMPTY);
            h.config == config && h.store == [] && h.sessions == map[] && h.issued == {7}
  {
    var ops := ENDED_EMPTY;
    assert ops[..0] == [] && ops[..2] == ops;
    RunMoves(config, ops, 0);
    RunMoves(config, ops, 1);
  }

  /** A session is opened and ends with nothing sealed: its id is refused, and handed out again after a restart. */
  lemma EmptySessionIsReopened(config: Config)
    requires config.persistent
    ensures !OpenSession(Run(Initial(config), ENDED_EMPTY), 7).1
    ensures OpenSession(Run(Initial(config), ENDED_EMPTY + [Restart([])]), 7).1
  {
    EndedEmpty(config);
    RunSplits(Initial(config), ENDED_EMPTY, Restart([]));
    RestartsEmpty(Run(Initial(config), ENDED_EMPTY));
  }

  lemma RestartsEmpty(h: Host)
    requires h.config.persistent && h.store == []
    ensures OpenSession(Step(h, Restart([])), 7).1
  {
    EmptySessionsAreForgotten(h.config, [], [], 7);
    assert OpenIds([]) == {};
  }
}
