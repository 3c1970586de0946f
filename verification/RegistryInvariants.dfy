/** What the registry of held calls keeps true, whatever requests come and however the calls end. */
module RegistryInvariants {
  import opened Records
  import opened Ordering
  import opened Seams
  import opened SeamInvariants
  import opened SeamRuns
  import opened SeamSettling
  import R = Registries

  // ---------------------------------------------------------------------------------------------------
  // The invariant.

  /** The sessions held, once each, each by an open call of its own. */
  ghost predicate SessionsOk(g: R.Registry) {
    && NoRepeats(g.order) && (forall s :: s in g.order <==> s in g.bySession)
    && (forall s :: s in g.bySession ==>
          g.bySession[s] < |g.held| && g.held[g.bySession[s]].session == s && !g.held[g.bySession[s]].closed)
  }

  /** A token leads to an open call that still owns it. */
  ghost predicate TokensOk(g: R.Registry) {
    forall t :: t in g.byToken ==>
      t < g.minted && g.byToken[t] < |g.held| && !g.held[g.byToken[t]].closed && t in g.held[g.byToken[t]].tokens
  }

  /** A token is claimed once, and then leads nowhere. */
  ghost predicate ClaimsOk(g: R.Registry) {
    && (forall k :: 0 <= k < |g.claims| ==>
          g.claims[k].call < |g.held| && g.claims[k].token < g.minted && g.claims[k].token !in g.byToken)
    && (forall k, l :: 0 <= k < l < |g.claims| ==> g.claims[k].token != g.claims[l].token)
  }

  ghost predicate OncePerToken(owns: seq<R.Own>) {
    forall k, l :: 0 <= k < l < |owns| ==> owns[k].token != owns[l].token
  }

  ghost predicate GivenBack(given: seq<R.Own>, t: Token) {
    exists k :: 0 <= k < |given| && given[k].token == t
  }

  /** An own state is kept by the call it was issued on until it is given back. */
  ghost predicate OwnsOk(g: R.Registry) {
    && OncePerToken(g.issued) && OncePerToken(g.given)
    && (forall k :: 0 <= k < |g.issued| ==> g.issued[k].token < g.minted)
    && (forall k :: 0 <= k < |g.given| ==> g.given[k] in g.issued)
    && (forall c :: 0 <= c < |g.held| ==> KeepsIssued(g, c))
  }

  ghost predicate KeepsIssued(g: R.Registry, c: R.HeldRef)
    requires c < |g.held|
  {
    forall t :: t in g.held[c].ownStates ==>
      R.Own(t, c, g.held[c].ownStates[t]) in g.issued && !GivenBack(g.given, t)
  }

  ghost predicate Ok(g: R.Registry) {
    SessionsOk(g) && TokensOk(g) && ClaimsOk(g) && OwnsOk(g)
  }

  // ---------------------------------------------------------------------------------------------------
  // Closing.

  lemma CloseKeepsSessions(g: R.Registry, c: R.HeldRef)
    requires SessionsOk(g) && c < |g.held|
    ensures SessionsOk(R.Close(g, c))
  {
    DroppingDrops(g.order, g.held[c].session);
  }

  lemma CloseKeeps(g: R.Registry, c: R.HeldRef)
    requires Ok(g) && c < |g.held|
    ensures Ok(R.Close(g, c)) && R.Close(g, c).max == g.max && |R.Close(g, c).bySession| <= |g.bySession|
    ensures R.Close(g, c).claims == g.claims
  {
    CloseKeepsSessions(g, c);
    var g' := R.Close(g, c);
    if !g.held[c].closed && g.held[c].session in g.bySession && g.bySession[g.held[c].session] == c {
      FewerEntries(g.bySession, g.held[c].session);
    }
    CloseKeepsTokens(g, c);
    forall k | 0 <= k < |g'.held|
      ensures KeepsIssued(g', k)
    {
      assert KeepsIssued(g, k);
    }
  }

  lemma CloseKeepsTokens(g: R.Registry, c: R.HeldRef)
    requires TokensOk(g) && ClaimsOk(g) && c < |g.held|
    ensures TokensOk(R.Close(g, c)) && ClaimsOk(R.Close(g, c))
  {
  }

  lemma FewerEntries(m: map<SessionId, R.HeldRef>, s: SessionId)
    requires s in m
    ensures |m - {s}| == |m| - 1
  {
  }

  lemma MoreEntries(m: map<SessionId, R.HeldRef>, s: SessionId, c: R.HeldRef)
    requires s !in m
    ensures |m[s := c]| == |m| + 1
  {
  }

  // ---------------------------------------------------------------------------------------------------
  // Opening.

  lemma AddKeepsSessions(g: R.Registry, session: SessionId, principal: Option<R.Principal>)
    requires SessionsOk(g) && session !in g.bySession
    ensures SessionsOk(R.Add(g, session, principal))
  {
    var g' := R.Add(g, session, principal);
    assert session !in g.order;
    assert forall s :: s in g'.order <==> s in g.order || s == session;
  }

  lemma AddKeepsOwns(g: R.Registry, session: SessionId, principal: Option<R.Principal>)
    requires OwnsOk(g)
    ensures OwnsOk(R.Add(g, session, principal))
  {
    var g' := R.Add(g, session, principal);
    forall k | 0 <= k < |g'.held|
      ensures KeepsIssued(g', k)
    {
      if k < |g.held| {
        assert KeepsIssued(g, k);
      }
    }
  }

  lemma AddKeeps(g: R.Registry, session: SessionId, principal: Option<R.Principal>)
    requires Ok(g) && session !in g.bySession
    ensures Ok(R.Add(g, session, principal))
    ensures |R.Add(g, session, principal).bySession| == |g.bySession| + 1 && R.Add(g, session, principal).max == g.max
  {
    MoreEntries(g.bySession, session, |g.held|);
    AddKeepsSessions(g, session, principal);
    AddKeepsOwns(g, session, principal);
  }

  /** A change to one call that keeps what the invariant asks of it. */
  lemma CallKeeps(g: R.Registry, c: R.HeldRef, h: R.Held)
    requires Ok(g) && c < |g.held| && h == g.held[c].(pending := h.pending, nextId := h.nextId, seam := h.seam)
    ensures Ok(R.WithHeld(g, c, h))
  {
    var g' := R.WithHeld(g, c, h);
    forall k | 0 <= k < |g'.held|
      ensures KeepsIssued(g', k)
    {
      assert KeepsIssued(g, k);
    }
  }

  lemma ExchangeKeeps(g: R.Registry, c: R.HeldRef)
    requires Ok(g) && c < |g.held|
    ensures Ok(R.Exchange(g, c)) && R.Exchange(g, c).bySession == g.bySession && R.Exchange(g, c).max == g.max
  {
    var call := g.held[c];
    CallKeeps(g, c, call.(pending := call.pending + {call.nextId + 1}, nextId := call.nextId + 1));
  }

  lemma TouchKeeps(g: R.Registry, c: R.HeldRef)
    requires Ok(g) && c < |g.held|
    ensures Ok(R.Touch(g, c)) && R.Touch(g, c).bySession == g.bySession && R.Touch(g, c).max == g.max
  {
    var s, g' := g.held[c].session, R.Touch(g, c);
    DroppingDrops(g.order, s);
    assert forall x :: x in Dropping(g.order, s) + [s] <==> x in Dropping(g.order, s) || x == s;
    forall k | 0 <= k < |g'.held|
      ensures KeepsIssued(g', k)
    {
      assert KeepsIssued(g, k);
    }
  }

  lemma OpenKeeps(g: R.Registry, session: SessionId, principal: Option<R.Principal>)
    requires Ok(g) && |g.bySession| <= g.max
    ensures var g' := R.Open(g, session, principal).0; Ok(g') && |g'.bySession| <= g'.max && g'.max == g.max
  {
    if session !in g.bySession {
      if |g.bySession| < g.max {
        AddKeeps(g, session, principal);
        ExchangeKeeps(R.Add(g, session, principal), |g.held|);
      } else if R.Victim(g, g.order).Some? {
        RoomKeeps(g, session, principal);
      }
    }
  }

  lemma RoomKeeps(g: R.Registry, session: SessionId, principal: Option<R.Principal>)
    requires Ok(g) && |g.bySession| <= g.max && session !in g.bySession && R.Victim(g, g.order).Some?
    ensures var room := R.Close(g, g.bySession[R.Victim(g, g.order).value]);
            var g' := R.Exchange(R.Add(room, session, principal), |g.held|);
            Ok(g') && |g'.bySession| <= g'.max && g'.max == g.max
  {
    var s := R.Victim(g, g.order).value;
    var room := R.Close(g, g.bySession[s]);
    CloseKeeps(g, g.bySession[s]);
    FewerEntries(g.bySession, s);
    AddKeeps(room, session, principal);
    ExchangeKeeps(R.Add(room, session, principal), |g.held|);
  }

  // ---------------------------------------------------------------------------------------------------
  // Retries.

  lemma RetryKeeps(g: R.Registry, token: Token, named: Option<SessionId>, principal: Option<R.Principal>)
    requires Ok(g)
    ensures var g' := R.RetryTarget(g, token, named, principal).0;
            Ok(g') && g'.bySession == g.bySession && g'.max == g.max
  {
    var (g', verdict) := R.RetryTarget(g, token, named, principal);
    if verdict.Claimed? {
      forall k | 0 <= k < |g'.held|
        ensures KeepsIssued(g', k)
      {
        assert KeepsIssued(g, k);
      }
    }
  }

  lemma GivenWith(given: seq<R.Own>, own: R.Own, t: Token)
    ensures GivenBack(given + [own], t) <==> GivenBack(given, t) || own.token == t
  {
    var all := given + [own];
    assert all[|given|] == own && forall k :: 0 <= k < |given| ==> all[k] == given[k];
    if GivenBack(given, t) {
      var k :| 0 <= k < |given| && given[k].token == t;
      assert all[k] == given[k];
    }
  }

  /** The same token cannot stand for own states of two calls. */
  lemma OneOwner(g: R.Registry, a: R.HeldRef, b: R.HeldRef, t: Token)
    requires OwnsOk(g) && a < |g.held| && b < |g.held| && t in g.held[a].ownStates && t in g.held[b].ownStates
    ensures a == b
  {
    assert KeepsIssued(g, a) && KeepsIssued(g, b);
    var k :| 0 <= k < |g.issued| && g.issued[k] == R.Own(t, a, g.held[a].ownStates[t]);
    var l :| 0 <= l < |g.issued| && g.issued[l] == R.Own(t, b, g.held[b].ownStates[t]);
  }

  lemma ResumeKeepsOwns(g: R.Registry, c: R.HeldRef, token: Token)
    requires OwnsOk(g) && c < |g.held|
    ensures OwnsOk(R.ResumeToken(g, c, token))
  {
    var g' := R.ResumeToken(g, c, token);
    var had := token in g.held[c].ownStates && !g.held[c].closed;
    assert KeepsIssued(g, c);
    if had {
      assert OncePerToken(g'.given) by {
        assert forall k :: 0 <= k < |g.given| ==> g.given[k].token != token;
      }
    }
    forall k | 0 <= k < |g'.held|
      ensures KeepsIssued(g', k)
    {
      assert KeepsIssued(g, k);
      forall t | t in g'.held[k].ownStates
        ensures !GivenBack(g'.given, t)
      {
        if had {
          GivenWith(g.given, R.Own(token, c, g.held[c].ownStates[token]), t);
          if k != c && t == token {
            OneOwner(g, c, k, t);
          }
        }
      }
    }
  }

  lemma ResumeKeeps(g: R.Registry, c: R.HeldRef, token: Token)
    requires Ok(g) && c < |g.held| && token !in g.byToken
    ensures var g' := R.ResumeToken(g, c, token); Ok(g') && g'.bySession == g.bySession && g'.max == g.max
  {
    ResumeKeepsOwns(g, c, token);
  }

  lemma DeliverKeeps(g: R.Registry, k: nat)
    requires Ok(g) && k < |g.claims|
    ensures var g' := R.Deliver(g, k); Ok(g') && g'.bySession == g.bySession && g'.max == g.max
  {
    var claim := g.claims[k];
    var left := g.(claims := g.claims[..k] + g.claims[k + 1..]);
    UnclaimedKeeps(g, k);
    ResumeKeeps(left, claim.call, claim.token);
    var resumed := R.ResumeToken(left, claim.call, claim.token);
    TouchKeeps(resumed, claim.call);
    ExchangeKeeps(R.Touch(resumed, claim.call), claim.call);
  }

  lemma UnclaimedKeeps(g: R.Registry, k: nat)
    requires Ok(g) && k < |g.claims|
    ensures Ok(g.(claims := g.claims[..k] + g.claims[k + 1..]))
  {
    var g' := g.(claims := g.claims[..k] + g.claims[k + 1..]);
    assert forall i :: 0 <= i < |g'.claims| ==> g'.claims[i] == g.claims[if i < k then i else i + 1];
    forall i | 0 <= i < |g'.held|
      ensures KeepsIssued(g', i)
    {
      assert KeepsIssued(g, i);
    }
  }

  // ---------------------------------------------------------------------------------------------------
  // Answers.

  /** A token issued on a call in flight. */
  ghost function Issued(g: R.Registry, c: R.HeldRef, own: Option<R.OwnState>): R.Registry
    requires c < |g.held|
  {
    var call := g.held[c];
    R.WithHeld(g, c, call.(tokens := call.tokens + {g.minted},
                           ownStates := if own.None? then call.ownStates else call.ownStates[g.minted := own.value]))
      .(byToken := g.byToken[g.minted := c], minted := g.minted + 1,
        issued := if own.None? then g.issued else g.issued + [R.Own(g.minted, c, own.value)])
  }

  lemma IssuedKeepsOwns(g: R.Registry, c: R.HeldRef, own: Option<R.OwnState>)
    requires OwnsOk(g) && c < |g.held|
    ensures OwnsOk(Issued(g, c, own))
  {
    var g' := Issued(g, c, own);
    assert !GivenBack(g.given, g.minted) by {
      assert forall k :: 0 <= k < |g.given| ==> g.given[k] in g.issued;
    }
    assert forall x :: x in g.issued ==> x in g'.issued;
    forall k | 0 <= k < |g'.held|
      ensures KeepsIssued(g', k)
    {
      assert KeepsIssued(g, k);
      if k == c && own.Some? {
        assert g'.issued[|g.issued|] == R.Own(g.minted, c, own.value);
      }
    }
  }

  lemma IssuedKeeps(g: R.Registry, c: R.HeldRef, own: Option<R.OwnState>)
    requires Ok(g) && c < |g.held| && !g.held[c].closed
    ensures Ok(Issued(g, c, own))
  {
    IssuedKeepsOwns(g, c, own);
  }

  /** A call that is closed has no request in flight. */
  ghost predicate ClosedIsStill(g: R.Registry) {
    forall c :: 0 <= c < |g.held| && g.held[c].closed ==> g.held[c].pending == {}
  }

  lemma AnswerIssues(g: R.Registry, c: R.HeldRef, id: nat, answering: R.Answering)
    requires c < |g.held| && id in g.held[c].pending && !answering.Ends? && !answering.Stateless?
    ensures var settled := R.WithHeld(g, c, g.held[c].(pending := g.held[c].pending - {id}));
            R.AnswerRequest(g, c, id, answering) ==
              Issued(settled, c, if answering.OwnRound? then Some(answering.state) else None)
  {
  }

  lemma AnswerKeeps(g: R.Registry, c: R.HeldRef, id: nat, answering: R.Answering)
    requires Ok(g) && ClosedIsStill(g) && c < |g.held| && |g.bySession| <= g.max
    ensures var g' := R.AnswerRequest(g, c, id, answering); Ok(g') && |g'.bySession| <= g'.max && g'.max == g.max
  {
    var call := g.held[c];
    if id in call.pending {
      var settled := R.WithHeld(g, c, call.(pending := call.pending - {id}));
      CallKeeps(g, c, call.(pending := call.pending - {id}));
      if answering.Ends? {
        CloseKeeps(settled, c);
      } else if !answering.Stateless? {
        IssuedKeeps(settled, c, if answering.OwnRound? then Some(answering.state) else None);
        AnswerIssues(g, c, id, answering);
      }
    }
  }

  // ---------------------------------------------------------------------------------------------------
  // Runs.

  /** The transport of every held call, closed or not, is as a transport should be. */
  ghost predicate SeamsOk(g: R.Registry) {
    forall c :: 0 <= c < |g.held| ==> Good(g.held[c].seam) && Structured(g.held[c].seam)
  }

  ghost predicate Right(g: R.Registry) {
    Ok(g) && ClosedIsStill(g) && SeamsOk(g) && |g.bySession| <= g.max
  }

  /** Calls keep their transports, but for one that moved and one more that starts out empty. */
  ghost predicate SeamsKept(g: R.Registry, g': R.Registry) {
    && |g.held| <= |g'.held|
    && (forall c :: 0 <= c < |g.held| ==> g'.held[c].seam == g.held[c].seam)
    && (forall c :: |g.held| <= c < |g'.held| ==> g'.held[c].seam == EMPTY)
  }

  lemma StepKeepsSeams(g: R.Registry, e: R.Occurrence)
    requires !e.Moves?
    ensures SeamsKept(g, R.Step(g, e))
  {
    match e
    case Opens(session, principal) => OpenKeepsSeams(g, session, principal);
    case Retries(token, named, principal) =>
    case Delivers(k) => if k < |g.claims| { DeliverKeepsSeams(g, k); }
    case AnsweredBy(c, id, answering) => if c < |g.held| { AnswerKeepsSeams(g, c, id, answering); }
    case Aborts(c, id) =>
    case Closes(c) => if c < |g.held| { ClosingKeepsSeams(g, c); }
  }

  lemma AnswerKeepsSeams(g: R.Registry, c: R.HeldRef, id: nat, answering: R.Answering)
    requires c < |g.held|
    ensures SeamsKept(g, R.AnswerRequest(g, c, id, answering))
  {
  }

  lemma OpenKeepsSeams(g: R.Registry, session: SessionId, principal: Option<R.Principal>)
    ensures SeamsKept(g, R.Open(g, session, principal).0)
  {
    AddedKeepsSeams(g, session, principal);
    var victim := R.Victim(g, g.order);
    if session !in g.bySession && |g.bySession| >= g.max && victim.Some? {
      var room := R.Close(g, g.bySession[victim.value]);
      ClosingKeepsSeams(g, g.bySession[victim.value]);
      AddedKeepsSeams(room, session, principal);
    }
  }

  lemma ClosingKeepsSeams(g: R.Registry, c: R.HeldRef)
    requires c < |g.held|
    ensures SeamsKept(g, R.Close(g, c))
  {
  }

  lemma AddedKeepsSeams(g: R.Registry, session: SessionId, principal: Option<R.Principal>)
    ensures SeamsKept(g, R.Exchange(R.Add(g, session, principal), |g.held|))
  {
  }

  lemma DeliverKeepsSeams(g: R.Registry, k: nat)
    requires k < |g.claims|
    ensures SeamsKept(g, R.Deliver(g, k))
  {
  }

  lemma StepSeamsOk(g: R.Registry, e: R.Occurrence)
    requires SeamsOk(g)
    ensures SeamsOk(R.Step(g, e))
  {
    if e.Moves? {
      if e.call < |g.held| {
        StepKeeps(g.held[e.call].seam, e.op);
        StepStructured(g.held[e.call].seam, e.op);
      }
    } else {
      StepKeepsSeams(g, e);
      RunKeeps([]);
    }
  }

  lemma AbortKeeps(g: R.Registry, c: R.HeldRef, id: nat)
    requires Right(g) && c < |g.held|
    ensures var g' := R.AbortRequest(g, c, id); Ok(g') && |g'.bySession| <= g'.max && g'.max == g.max
  {
    CallKeeps(g, c, g.held[c].(pending := g.held[c].pending - {id}));
  }

  lemma MoveKeeps(g: R.Registry, c: R.HeldRef, op: Op)
    requires Right(g) && c < |g.held|
    ensures var g' := R.Move(g, c, op); Ok(g') && |g'.bySession| <= g'.max && g'.max == g.max
  {
    CallKeeps(g, c, g.held[c].(seam := Seams.Step(g.held[c].seam, op)));
  }

  lemma RetrySeen(g: R.Registry, e: R.Occurrence)
    requires Right(g) && (e.Retries? || e.Delivers?)
    ensures var g' := R.Step(g, e); Ok(g') && |g'.bySession| <= g'.max && g'.max == g.max
  {
    if e.Retries? {
      RetryKeeps(g, e.token, e.named, e.principal);
    } else if e.claim < |g.claims| {
      DeliverKeeps(g, e.claim);
    }
  }

  lemma StepKeepsOk(g: R.Registry, e: R.Occurrence)
    requires Right(g)
    ensures var g' := R.Step(g, e); Ok(g') && |g'.bySession| <= g'.max && g'.max == g.max
  {
    match e
    case Opens(session, principal) => OpenKeeps(g, session, principal);
    case Retries(_, _, _) => RetrySeen(g, e);
    case Delivers(_) => RetrySeen(g, e);
    case AnsweredBy(c, id, answering) => if c < |g.held| { AnswerKeeps(g, c, id, answering); }
    case Aborts(c, id) => if c < |g.held| { AbortKeeps(g, c, id); }
    case Closes(c) => if c < |g.held| { CloseKeeps(g, c); }
    case Moves(c, op) => if c < |g.held| { MoveKeeps(g, c, op); }
  }

  lemma StepStaysStill(g: R.Registry, e: R.Occurrence)
    requires ClosedIsStill(g)
    ensures ClosedIsStill(R.Step(g, e))
  {
    match e
    case Opens(session, principal) => OpenStaysStill(g, session, principal);
    case Retries(token, named, principal) =>
    case Delivers(k) => if k < |g.claims| { DeliverStaysStill(g, k); }
    case AnsweredBy(c, id, answering) => if c < |g.held| { AnswerStaysStill(g, c, id, answering); }
    case Aborts(c, id) =>
    case Closes(c) =>
    case Moves(c, op) =>
  }

  lemma OpenStaysStill(g: R.Registry, session: SessionId, principal: Option<R.Principal>)
    requires ClosedIsStill(g)
    ensures ClosedIsStill(R.Open(g, session, principal).0)
  {
    AddedStaysStill(g, session, principal);
    var victim := R.Victim(g, g.order);
    if victim.Some? {
      AddedStaysStill(R.Close(g, g.bySession[victim.value]), session, principal);
    }
  }

  lemma AddedStaysStill(g: R.Registry, session: SessionId, principal: Option<R.Principal>)
    requires ClosedIsStill(g)
    ensures ClosedIsStill(R.Exchange(R.Add(g, session, principal), |g.held|))
  {
  }

  lemma DeliverStaysStill(g: R.Registry, k: nat)
    requires ClosedIsStill(g) && k < |g.claims|
    ensures ClosedIsStill(R.Deliver(g, k))
  {
  }

  lemma AnswerStaysStill(g: R.Registry, c: R.HeldRef, id: nat, answering: R.Answering)
    requires ClosedIsStill(g) && c < |g.held|
    ensures ClosedIsStill(R.AnswerRequest(g, c, id, answering))
  {
  }

  lemma {:induction false} AlwaysRight(max: nat, events: seq<R.Occurrence>)
    ensures Right(R.Run(R.Empty(max), events)) && R.Run(R.Empty(max), events).max == max
  {
    if events != [] {
      var front := events[..|events| - 1];
      AlwaysRight(max, front);
      StepKeepsOk(R.Run(R.Empty(max), front), events[|events| - 1]);
      StepStaysStill(R.Run(R.Empty(max), front), events[|events| - 1]);
      StepSeamsOk(R.Run(R.Empty(max), front), events[|events| - 1]);
    }
  }

  /**
   * The registry never holds more sessions than it may, each is held by one open call, and every token leads to an
   * open call that issued it and has not seen it back.
   */
  lemma RegistryIsRight(max: nat, events: seq<R.Occurrence>, s: SessionId, t: Token)
    ensures var g := R.Run(R.Empty(max), events);
            && |g.bySession| <= max
            && (s in g.bySession ==> g.bySession[s] < |g.held| && g.held[g.bySession[s]].session == s
                                     && !g.held[g.bySession[s]].closed)
            && (t in g.byToken ==> g.byToken[t] < |g.held| && !g.held[g.byToken[t]].closed && t in g.held[g.byToken[t]].tokens)
  {
    AlwaysRight(max, events);
  }

  /** The tool's own state comes back at most once under each token, and to the call that issued it. */
  lemma OwnStateComesBackOnce(max: nat, events: seq<R.Occurrence>, k: nat, l: nat)
    requires k < |R.Run(R.Empty(max), events).given| && l < |R.Run(R.Empty(max), events).given|
    ensures var g := R.Run(R.Empty(max), events);
            g.given[k] in g.issued && (k != l ==> g.given[k].token != g.given[l].token)
  {
    AlwaysRight(max, events);
  }

  /** The call closed to make room comes before any other that might have been. */
  ghost predicate FirstOf(g: R.Registry, order: seq<SessionId>, s: SessionId) {
    exists j :: 0 <= j < |order| && order[j] == s && R.Evictable(g, s) && forall i :: 0 <= i < j ==> !R.Evictable(g, order[i])
  }

  lemma {:induction false} VictimIsFirst(g: R.Registry, order: seq<SessionId>)
    ensures match R.Victim(g, order)
            case Some(s) => FirstOf(g, order, s)
            case None => forall i :: 0 <= i < |order| ==> !R.Evictable(g, order[i])
  {
    if order != [] && !R.Evictable(g, order[0]) {
      VictimIsFirst(g, order[1..]);
      assert forall i :: 0 < i < |order| ==> order[1..][i - 1] == order[i];
      var v := R.Victim(g, order[1..]);
      if v.Some? {
        var j :| 0 <= j < |order[1..]| && order[1..][j] == v.value && forall i :: 0 <= i < j ==> !R.Evictable(g, order[1..][i]);
        assert order[j + 1] == v.value;
        forall i | 0 <= i < j + 1
          ensures !R.Evictable(g, order[i])
        {
          assert i > 0 ==> order[1..][i - 1] == order[i];
        }
      }
    } else if order != [] {
      assert order[0] == R.Victim(g, order).value;
    }
  }

  /** Every call a transport serves has delivered what it owes. */
  ghost predicate DeliveredAll(t: Seam) {
    forall id :: id in t.tracked ==>
      && t.tracked[id] < |t.calls| && !t.calls[t.tracked[id]].cancelled && t.calls[t.tracked[id]].cut <= |t.calls[t.tracked[id]].emitted|
      && Delivered(t.sent, t.tracked[id]) == Owed(t.calls[t.tracked[id]])
  }

  lemma AtRestHasDelivered(t: Seam)
    requires Good(t) && Structured(t) && AtRest(t)
    ensures DeliveredAll(t)
  {
    forall id | id in t.tracked
      ensures var c := t.tracked[id];
              && c < |t.calls| && !t.calls[c].cancelled && t.calls[c].cut <= |t.calls[c].emitted|
              && Delivered(t.sent, c) == Owed(t.calls[c])
    {
      IdleCallHasDelivered(t, id);
    }
  }

  /** Opening the session has to make room, and this call is the one that goes. */
  ghost predicate MakesRoomWith(g: R.Registry, session: SessionId, c: R.HeldRef)
    requires c < |g.held|
  {
    && session !in g.bySession && |g.bySession| == g.max
    && g.held[c].session in g.bySession && g.bySession[g.held[c].session] == c
    && FirstOf(g, g.order, g.held[c].session)
  }

  lemma OneIsFirst(g: R.Registry, order: seq<SessionId>, s: SessionId)
    requires FirstOf(g, order, s)
    ensures R.Victim(g, order) == Some(s)
  {
    VictimIsFirst(g, order);
    var j :| 0 <= j < |order| && order[j] == s && R.Evictable(g, s) && forall i :: 0 <= i < j ==> !R.Evictable(g, order[i]);
    var v := R.Victim(g, order).value;
    var k :| 0 <= k < |order| && order[k] == v && R.Evictable(g, v) && forall i :: 0 <= i < k ==> !R.Evictable(g, order[i]);
    assert j == k;
  }

  /** Opening a session closes the call that makes room for it, and no other. */
  lemma OpeningCloses(g: R.Registry, session: SessionId, principal: Option<R.Principal>, c: R.HeldRef)
    requires Right(g) && c < |g.held| && !g.held[c].closed
    ensures var g' := R.Open(g, session, principal).0;
            c < |g'.held| && (g'.held[c].closed <==> MakesRoomWith(g, session, c))
  {
    AddedKeepsHeld(g, session, principal, c);
    VictimIsFirst(g, g.order);
    if FirstOf(g, g.order, g.held[c].session) {
      OneIsFirst(g, g.order, g.held[c].session);
    }
    var victim := R.Victim(g, g.order);
    if session !in g.bySession && |g.bySession| >= g.max && victim.Some? {
      var v := g.bySession[victim.value];
      ClosingKeepsHeld(g, v, c);
      AddedKeepsHeld(R.Close(g, v), session, principal, c);
    }
  }

  /**
   * Making room closes a call if and only if the registry is full, the session is new, and the call is the least recently
   * used one that may be closed; then it has no request in flight, and every call its transport serves has delivered
   * all that its handler emitted, less attempts unsent when the handler finished.
   */
  lemma MakingRoomIsSafe(max: nat, events: seq<R.Occurrence>, session: SessionId, principal: Option<R.Principal>,
                         c: R.HeldRef)
    requires var g := R.Run(R.Empty(max), events); c < |g.held| && !g.held[c].closed
    ensures var g := R.Run(R.Empty(max), events);
            var g' := R.Open(g, session, principal).0;
            && c < |g'.held|
            && (g'.held[c].closed <==> MakesRoomWith(g, session, c))
            && (g'.held[c].closed ==> g.held[c].pending == {} && DeliveredAll(g.held[c].seam))
  {
    AlwaysRight(max, events);
    var g := R.Run(R.Empty(max), events);
    OpeningCloses(g, session, principal, c);
    if MakesRoomWith(g, session, c) {
      AtRestHasDelivered(g.held[c].seam);
    }
  }

  lemma AddedKeepsHeld(g: R.Registry, session: SessionId, principal: Option<R.Principal>, c: R.HeldRef)
    requires c < |g.held|
    ensures R.Exchange(R.Add(g, session, principal), |g.held|).held[c] == g.held[c]
  {
  }

  lemma ClosingKeepsHeld(g: R.Registry, v: R.HeldRef, c: R.HeldRef)
    requires v < |g.held| && c < |g.held|
    ensures c != v ==> R.Close(g, v).held[c] == g.held[c]
  {
  }

  /** And it refuses a new call only where none may be closed. */
  lemma RefusingIsNeeded(max: nat, events: seq<R.Occurrence>, session: SessionId, principal: Option<R.Principal>)
    requires R.Open(R.Run(R.Empty(max), events), session, principal).1.RegistryFull?
    ensures var g := R.Run(R.Empty(max), events);
            |g.bySession| == max && forall s :: !R.Evictable(g, s)
  {
    AlwaysRight(max, events);
    var g := R.Run(R.Empty(max), events);
    VictimIsFirst(g, g.order);
    forall s | s in g.bySession
      ensures !R.Evictable(g, s)
    {
      assert s in g.order;
    }
  }

  // ---------------------------------------------------------------------------------------------------
  // A retry on its way.

  /** The occurrences that close an open call: room is made, its final frame is heard, or it is closed from outside. */
  ghost predicate ClosesIn(g: R.Registry, e: R.Occurrence, c: R.HeldRef)
    requires c < |g.held|
  {
    match e
    case Opens(session, _) => MakesRoomWith(g, session, c)
    case AnsweredBy(d, id, answering) => d == c && id in g.held[c].pending && answering.Ends?
    case Closes(d) => d == c
    case _ => false
  }

  lemma EndingCloses(g: R.Registry, e: R.Occurrence, c: R.HeldRef)
    requires c < |g.held| && !g.held[c].closed && (e.AnsweredBy? || e.Closes?)
    ensures var g' := R.Step(g, e); c < |g'.held| && (g'.held[c].closed <==> ClosesIn(g, e, c))
  {
    if e.call < |g.held| {
      if e.AnsweredBy? {
        AnswerCloses(g, e.call, e.id, e.answering, c);
      } else {
        ClosingKeepsHeld(g, e.call, c);
      }
    }
  }

  lemma OtherwiseSameClosed(g: R.Registry, e: R.Occurrence, c: R.HeldRef)
    requires c < |g.held| && (e.Retries? || e.Delivers? || e.Aborts? || e.Moves?)
    ensures c < |R.Step(g, e).held| && R.Step(g, e).held[c].closed == g.held[c].closed
  {
    if e.Delivers? && e.claim < |g.claims| {
      DeliveryCloses(g, e.claim, c);
    }
  }

  lemma OneStepCloses(g: R.Registry, e: R.Occurrence, c: R.HeldRef)
    requires Right(g) && c < |g.held| && !g.held[c].closed
    ensures var g' := R.Step(g, e); c < |g'.held| && (g'.held[c].closed <==> ClosesIn(g, e, c))
  {
    if e.Opens? {
      OpeningCloses(g, e.session, e.principal, c);
    } else if e.AnsweredBy? || e.Closes? {
      EndingCloses(g, e, c);
    } else {
      OtherwiseSameClosed(g, e, c);
    }
  }

  lemma DeliveryCloses(g: R.Registry, k: nat, c: R.HeldRef)
    requires k < |g.claims| && c < |g.held|
    ensures R.Deliver(g, k).held[c].closed == g.held[c].closed
  {
  }

  lemma AnswerCloses(g: R.Registry, d: R.HeldRef, id: nat, answering: R.Answering, c: R.HeldRef)
    requires d < |g.held| && c < |g.held| && !g.held[c].closed
    ensures var g' := R.AnswerRequest(g, d, id, answering);
            |g'.held| == |g.held| && (g'.held[c].closed <==> d == c && id in g.held[c].pending && answering.Ends?)
  {
    var settled := R.WithHeld(g, d, g.held[d].(pending := g.held[d].pending - {id}));
    ClosingKeepsHeld(settled, d, c);
  }

  lemma EndingKeepsClosed(g: R.Registry, e: R.Occurrence, c: R.HeldRef)
    requires c < |g.held| && g.held[c].closed && (e.AnsweredBy? || e.Closes?)
    ensures c < |R.Step(g, e).held| && R.Step(g, e).held[c].closed
  {
    if e.call < |g.held| {
      if e.AnsweredBy? {
        ClosingKeepsHeld(R.WithHeld(g, e.call, g.held[e.call].(pending := g.held[e.call].pending - {e.id})), e.call, c);
      } else {
        ClosingKeepsHeld(g, e.call, c);
      }
    }
  }

  /** A call that is closed stays so. */
  lemma ClosedForGood(g: R.Registry, e: R.Occurrence, c: R.HeldRef)
    requires c < |g.held| && g.held[c].closed
    ensures c < |R.Step(g, e).held| && R.Step(g, e).held[c].closed
  {
    if e.Opens? {
      OpeningKeepsClosed(g, e.session, e.principal, c);
    } else if e.AnsweredBy? || e.Closes? {
      EndingKeepsClosed(g, e, c);
    } else {
      OtherwiseSameClosed(g, e, c);
    }
  }

  lemma OpeningKeepsClosed(g: R.Registry, session: SessionId, principal: Option<R.Principal>, c: R.HeldRef)
    requires c < |g.held| && g.held[c].closed
    ensures c < |R.Open(g, session, principal).0.held| && R.Open(g, session, principal).0.held[c].closed
  {
    AddedKeepsHeld(g, session, principal, c);
    var victim := R.Victim(g, g.order);
    if session !in g.bySession && |g.bySession| >= g.max && victim.Some? {
      var v := g.bySession[victim.value];
      ClosingKeepsHeld(g, v, c);
      AddedKeepsHeld(R.Close(g, v), session, principal, c);
    }
  }

  ghost predicate OpenAt(max: nat, events: seq<R.Occurrence>, n: nat, c: R.HeldRef)
    requires n <= |events|
  {
    var g := R.Run(R.Empty(max), events[..n]);
    c < |g.held| && !g.held[c].closed
  }

  /** Occurrence number `i` closes the call. */
  ghost predicate ClosesAt(max: nat, events: seq<R.Occurrence>, i: nat, c: R.HeldRef)
    requires i < |events|
  {
    var g := R.Run(R.Empty(max), events[..i]);
    c < |g.held| && !g.held[c].closed && ClosesIn(g, events[i], c)
  }

  lemma RunOne(g: R.Registry, events: seq<R.Occurrence>, n: nat)
    requires n < |events|
    ensures R.Run(g, events[..n + 1]) == R.Step(R.Run(g, events[..n]), events[n])
  {
    assert events[..n + 1][..n] == events[..n];
  }

  lemma OpenAtNext(max: nat, events: seq<R.Occurrence>, n: nat, c: R.HeldRef)
    requires n < |events| && c < |R.Run(R.Empty(max), events[..n]).held|
    ensures OpenAt(max, events, n + 1, c) <==> OpenAt(max, events, n, c) && !ClosesAt(max, events, n, c)
    ensures c < |R.Run(R.Empty(max), events[..n + 1]).held|
  {
    var g := R.Run(R.Empty(max), events[..n]);
    AlwaysRight(max, events[..n]);
    RunOne(R.Empty(max), events, n);
    if g.held[c].closed {
      ClosedForGood(g, events[n], c);
    } else {
      OneStepCloses(g, events[n], c);
    }
  }

  lemma {:induction false} HeldStays(max: nat, events: seq<R.Occurrence>, n: nat, m: nat, c: R.HeldRef)
    requires n <= m <= |events| && c < |R.Run(R.Empty(max), events[..n]).held|
    ensures c < |R.Run(R.Empty(max), events[..m]).held|
    decreases m - n
  {
    if n < m {
      OpenAtNext(max, events, n, c);
      HeldStays(max, events, n + 1, m, c);
    }
  }

  /** What is closed by one step, and only by one, stays open while no step closes it. */
  lemma {:induction false} OpenAlong(open: seq<bool>, closes: seq<bool>, n: nat, m: nat)
    requires n <= m < |open| && |open| == |closes| + 1 && open[n]
    requires forall i :: n <= i < m ==> (open[i + 1] <==> open[i] && !closes[i])
    ensures open[m] <==> forall i :: n <= i < m ==> !closes[i]
    decreases m - n
  {
    if n < m {
      OpenAlong(open, closes, n, m - 1);
      assert open[m - 1 + 1] <==> open[m - 1] && !closes[m - 1];
    }
  }

  /** Between two moments a call stays open if and only if no occurrence closes it. */
  lemma OpenUntilClosed(max: nat, events: seq<R.Occurrence>, n: nat, m: nat, c: R.HeldRef)
    requires n <= m <= |events| && OpenAt(max, events, n, c)
    ensures c < |R.Run(R.Empty(max), events[..m]).held|
    ensures OpenAt(max, events, m, c) <==> forall i: nat :: n <= i < m ==> !ClosesAt(max, events, i, c)
  {
    HeldStays(max, events, n, m, c);
    var open := seq(|events| + 1, i requires 0 <= i <= |events| => OpenAt(max, events, i, c));
    var closes := seq(|events|, i requires 0 <= i < |events| => ClosesAt(max, events, i, c));
    forall i | n <= i < m
      ensures open[i + 1] <==> open[i] && !closes[i]
    {
      HeldStays(max, events, n, i, c);
      OpenAtNext(max, events, i, c);
    }
    OpenAlong(open, closes, n, m);
    forall i: nat | n <= i < m
      ensures closes[i] <==> ClosesAt(max, events, i, c)
    {
    }
  }

  /** A retry that is written waits for its answer; one whose call is closed is refused, and the tool hears nothing of it. */
  lemma DeliveryIsRefused(g: R.Registry, k: nat)
    requires k < |g.claims| && g.claims[k].call < |g.held| && ClosedIsStill(g)
    ensures var c := g.claims[k].call;
            var call, call' := g.held[c], R.Deliver(g, k).held[c];
            if call.closed then call'.pending == {} && call'.nextId == call.nextId && R.Deliver(g, k).given == g.given
            else call'.nextId == call.nextId + 1 && call'.pending == call.pending + {call'.nextId}
  {
  }

  lemma ClaimedIsOpen(g: R.Registry, token: Token, named: Option<SessionId>, principal: Option<R.Principal>)
    requires Right(g) && R.RetryTarget(g, token, named, principal).1.Claimed?
    ensures var (g', verdict) := R.RetryTarget(g, token, named, principal);
            verdict.call < |g'.held| && !g'.held[verdict.call].closed
  {
    assert Ok(g);
    assert token in g.byToken && !g.held[g.byToken[token]].closed;
  }

  /**
   * A retry that took its token, however long it is on its way: it is written and waits for its answer if and only if
   * nothing closed its call since, and is refused otherwise. One thing that may have is room made for another session.
   */
  lemma ClaimedRetryIsServed(max: nat, events: seq<R.Occurrence>, n: nat, k: nat, c: R.HeldRef)
    requires n < |events| && events[n].Retries?
    requires R.RetryTarget(R.Run(R.Empty(max), events[..n]), events[n].token, events[n].named, events[n].principal).1 == R.Claimed(c)
    requires k < |R.Run(R.Empty(max), events).claims| && R.Run(R.Empty(max), events).claims[k] == R.Claim(events[n].token, c)
    ensures var g := R.Run(R.Empty(max), events);
            && c < |g.held|
            && var call, call' := g.held[c], R.Deliver(g, k).held[c];
               && (call'.nextId in call'.pending && call'.nextId == call.nextId + 1 <==>
                     forall i: nat :: n < i < |events| ==> !ClosesAt(max, events, i, c))
               && (call'.nextId != call.nextId + 1 ==> call'.pending == {} && R.Deliver(g, k).given == g.given)
  {
    AlwaysRight(max, events[..n]);
    AlwaysRight(max, events);
    RunOne(R.Empty(max), events, n);
    ClaimedIsOpen(R.Run(R.Empty(max), events[..n]), events[n].token, events[n].named, events[n].principal);
    assert OpenAt(max, events, n + 1, c);
    OpenUntilClosed(max, events, n + 1, |events|, c);
    assert events[..|events|] == events;
    DeliveryIsRefused(R.Run(R.Empty(max), events), k);
  }

  /** One call is held, and its round is out; a retry takes the token, and another call is opened before it is written. */
  function ClaimedRun(e: Event): seq<R.Occurrence> {
    [R.Opens(7, None), R.Moves(0, Arrives(1, true, Some(7))), R.Moves(0, EmitsAttempt(0, e)), R.Moves(0, RoundTimer(0)),
     R.AnsweredBy(0, 1, R.TransportRound), R.Retries(0, Some(7), None), R.Opens(8, None)]
  }

  /** A run that makes room with a call whose retry took its token and is not written yet. */
  lemma ClaimedCallMayBeClosed(e: Event)
    ensures var g := R.Run(R.Empty(1), ClaimedRun(e));
            g.claims == [R.Claim(0, 0)] && |g.held| == 2 && g.held[0].closed && !g.held[1].closed
  {
    var events := ClaimedRun(e);
    var g0 := R.Empty(1);
    assert events[..0] == [] && events[..7] == events;
    RunOne(g0, events, 0);
    RunOne(g0, events, 1);
    RunOne(g0, events, 2);
    RunOne(g0, events, 3);
    RunOne(g0, events, 4);
    RunOne(g0, events, 5);
    RunOne(g0, events, 6);
    OpenedFirst();
    RoundIsOut(R.Run(g0, events[..1]), e);
    TokenTaken(R.Run(g0, events[..4]));
    RoomIsMade(R.Run(g0, events[..6]));
  }

  predicate HoldsOne(g: R.Registry, pending: set<nat>) {
    && g.max == 1 && |g.held| == 1 && g.order == [7] && g.bySession == map[7 := 0]
    && g.held[0].session == 7 && g.held[0].principal.None? && !g.held[0].closed && g.held[0].pending == pending
    && g.held[0].ownStates == map[]
  }

  lemma OpenedFirst()
    ensures var g := R.Step(R.Empty(1), R.Opens(7, None));
            HoldsOne(g, {1}) && g.held[0].seam == EMPTY && g.byToken == map[] && g.claims == [] && g.minted == 0
  {
  }

  lemma RoundIsOut(g: R.Registry, e: Event)
    requires HoldsOne(g, {1}) && g.held[0].seam == EMPTY && g.byToken == map[] && g.claims == [] && g.minted == 0
    ensures var g' := R.Step(R.Step(R.Step(g, R.Moves(0, Arrives(1, true, Some(7)))), R.Moves(0, EmitsAttempt(0, e))),
                             R.Moves(0, RoundTimer(0)));
            HoldsOne(g', {1}) && AtRest(g'.held[0].seam) && g'.byToken == map[] && g'.claims == [] && g'.minted == 0
  {
    SeamRoundIsOut(e);
  }

  lemma SeamRoundIsOut(e: Event)
    ensures AtRest(Seams.Step(Seams.Step(Seams.Step(EMPTY, Arrives(1, true, Some(7))), EmitsAttempt(0, e)), RoundTimer(0)))
  {
  }

  lemma TokenTaken(g: R.Registry)
    requires HoldsOne(g, {1}) && AtRest(g.held[0].seam) && g.byToken == map[] && g.claims == [] && g.minted == 0
    ensures var g' := R.Step(R.Step(g, R.AnsweredBy(0, 1, R.TransportRound)), R.Retries(0, Some(7), None));
            HoldsOne(g', {}) && AtRest(g'.held[0].seam) && g'.claims == [R.Claim(0, 0)]
  {
  }

  lemma RoomIsMade(g: R.Registry)
    requires HoldsOne(g, {}) && AtRest(g.held[0].seam) && g.claims == [R.Claim(0, 0)]
    ensures var g' := R.Step(g, R.Opens(8, None));
            g'.claims == [R.Claim(0, 0)] && |g'.held| == 2 && g'.held[0].closed && !g'.held[1].closed
  {
  }
}
