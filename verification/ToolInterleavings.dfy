/** What is proved of a session's emissions taken whole holds of them cut at their waits and interleaved. */
module ToolInterleavings {
  import opened Records
  import opened Accounting
  import opened Verify
  import opened Hosts
  import opened Chains
  import opened HostInvariants
  import opened Tools
  import opened ToolRuns
  import opened ToolNumbering
  import opened ToolSequences
  import opened ToolAccounting
  import Turns = ToolTurns

  /** The session just opened, and what its emissions have come to. */
  function Desks(h: Host, session: SessionId, moves: seq<Turns.Move>): Turns.Desk {
    Turns.Interleaved(Turns.Opened(Begin(h, session)), moves)
  }

  /** Audit before act, at every wait of every emission: a body was entered only where its attempt is sealed. */
  lemma AuditBeforeActAtEveryWait(h: Host, session: SessionId, moves: seq<Turns.Move>, id: Id)
    requires Invariant(h)
    ensures var w := Desks(h, session, moves).world;
            && (id in w.actions && Ran(w.actions[id].stage) ==> AttemptIn(w.host.chain, session, id))
            && OutcomesOf(w.sends, id) == (if id in w.actions then SentOf(w.actions[id].stage) else [])
            && (id in w.actions ==> EndFits(w.actions[id].stage))
  {
    Turns.EmissionsAreSequential(Begin(h, session), moves);
    AuditBeforeAct(h, session, Desks(h, session, moves).done, id);
  }

  /** A stretch of an emission takes it whole, at its last wait, or leaves the world as it was. */
  lemma OneMove(d: Turns.Desk, move: Turns.Move)
    requires !move.Others?
    ensures var d' := Turns.Next(d, move);
            (d'.world == d.world && d'.done == d.done)
            || exists step: ToolStep :: !step.Elsewhere? && d'.done == d.done + [step]
  {
    if move.Proceeds? && move.turn < |d.turns| {
      var step := d.turns[move.turn].step;
      assert Turns.Proceed(d, move.turn).done == d.done || Turns.Proceed(d, move.turn).done == d.done + [step];
    }
  }

  lemma DoneGrowsOnce(d: Turns.Desk, move: Turns.Move)
    ensures d.done <= Turns.Next(d, move).done
  {
  }

  lemma {:induction false} DoneGrows(d: Turns.Desk, moves: seq<Turns.Move>, n: nat)
    requires n <= |moves|
    ensures Turns.Interleaved(d, moves[..n]).done <= Turns.Interleaved(d, moves).done
  {
    if n < |moves| {
      var last := |moves| - 1;
      assert moves[..last][..n] == moves[..n];
      DoneGrows(d, moves[..last], n);
      DoneGrowsOnce(Turns.Interleaved(d, moves[..last]), moves[last]);
    } else {
      assert moves[..n] == moves;
    }
  }

  /** Whichever stretch of whichever emission comes next, the host flags nothing of the session. */
  lemma NothingIsFlaggedAtAnyWait(h: Host, session: SessionId, key: KeyId, moves: seq<Turns.Move>, n: nat)
    requires Clean(h) && h.config.level.L2? && session !in h.issued
    requires AllAllowed(Begin(h, session), Desks(h, session, moves).done, key) && n < |moves| && !moves[n].Others?
    ensures Desks(h, session, moves[..n + 1]).world.host.anomalies == Desks(h, session, moves[..n]).world.host.anomalies
  {
    var w, d, d' := Begin(h, session), Desks(h, session, moves[..n]), Desks(h, session, moves[..n + 1]);
    assert moves[..n + 1][..n] == moves[..n];
    OneMove(d, moves[n]);
    Turns.EmissionsAreSequential(w, moves[..n]);
    Turns.EmissionsAreSequential(w, moves[..n + 1]);
    if d'.world != d.world || d'.done != d.done {
      var step: ToolStep :| !step.Elsewhere? && d'.done == d.done + [step];
      DoneGrows(Turns.Opened(w), moves, n + 1);
      FlagsNothing(h, session, key, Desks(h, session, moves).done, d'.done);
      assert d'.done[..|d.done|] == d.done && d'.done[..|d.done| + 1] == d'.done;
    }
  }

  lemma FlagsNothing(h: Host, session: SessionId, key: KeyId, all: seq<ToolStep>, done: seq<ToolStep>)
    requires Clean(h) && h.config.level.L2? && session !in h.issued && AllAllowed(Begin(h, session), all, key)
    requires done <= all && done != [] && !done[|done| - 1].Elsewhere?
    ensures TakeAll(Begin(h, session), done[..|done|]).host.anomalies
              == TakeAll(Begin(h, session), done[..|done| - 1]).host.anomalies
  {
    assert all[..|done|] == done;
    AllAllowedFront(Begin(h, session), all, key, |done|);
    NothingOfItIsFlagged(h, session, key, done, |done| - 1);
  }

  /** And once every outcome is delivered, the auditor's accounting of the session comes out empty. */
  lemma InterleavedIsAccounted(h: Host, session: SessionId, key: KeyId, moves: seq<Turns.Move>)
    requires Clean(h) && h.config.level.L2? && session !in h.issued
    requires AllAllowed(Begin(h, session), Desks(h, session, moves).done, key)
    requires Delivered(Desks(h, session, moves).world.log)
    ensures Left(EventsOf(Desks(h, session, moves).world.host.chain), Group(key, session)) == {}
  {
    Turns.EmissionsAreSequential(Begin(h, session), moves);
    RunIsAccounted(h, session, key, Desks(h, session, moves).done);
  }
}
