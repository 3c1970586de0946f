/**
 * The calls a tool's HTTP entry holds between the requests of one call: which there are, which round tokens lead to
 * them, and which of them may make room for another.
 */
module Registries {
  import opened Records
  import opened Ordering
  import opened Seams

  type HeldRef = nat
  type Principal = nat
  /** A tool's own `requestState`, which a token stands for between its rounds. */
  type OwnState = nat

  /**
   * One held call. `tokens` are the round tokens issued on it that no retry has consumed, `ownStates` the tool's own
   * state by the token that stands for it, `pending` its requests in flight, and `seam` its connection's transport.
   */
  datatype Held = Held(
    session: SessionId,
    principal: Option<Principal>,
    tokens: set<Token>,
    ownStates: map<Token, OwnState>,
    pending: set<nat>,
    nextId: nat,
    closed: bool,
    seam: Seam)

  /** A retry that has taken its token and is about to be written into its call. */
  datatype Claim = Claim(token: Token, call: HeldRef)

  /** An own state handed back to the tool, and one issued: by which call, under which token. */
  datatype Own = Own(token: Token, call: HeldRef, state: OwnState)

  /** `order` lists the sessions held, least recently used first; `issued` and `given` record what happened. */
  datatype Registry = Registry(
    max: nat,
    held: seq<Held>,
    order: seq<SessionId>,
    bySession: map<SessionId, HeldRef>,
    byToken: map<Token, HeldRef>,
    minted: nat,
    claims: seq<Claim>,
    issued: seq<Own>,
    given: seq<Own>)

  function Empty(max: nat): Registry {
    Registry(max, [], [], map[], map[], 0, [], [], [])
  }

  function WithHeld(g: Registry, c: HeldRef, h: Held): Registry
    requires c < |g.held|
  {
    g.(held := g.held[c := h])
  }

  /** Close the call: its requests are answered with errors, and nothing leads to it any more. */
  function Close(g: Registry, c: HeldRef): (g': Registry)
    requires c < |g.held|
    ensures |g'.held| == |g.held|
  {
    var call := g.held[c];
    if call.closed then g else
      var registered := call.session in g.bySession && g.bySession[call.session] == c;
      g.(held := g.held[c := call.(closed := true, pending := {})],
         bySession := if registered then g.bySession - {call.session} else g.bySession,
         order := if registered then Dropping(g.order, call.session) else g.order,
         byToken := map t | t in g.byToken && !(t in call.tokens && g.byToken[t] == c) :: g.byToken[t])
  }

  /** A call that may be closed to make room: no request in flight, and its transport at rest. */
  predicate Evictable(g: Registry, s: SessionId) {
    && s in g.bySession && g.bySession[s] < |g.held|
    && g.held[g.bySession[s]].pending == {} && AtRest(g.held[g.bySession[s]].seam)
  }

  /** The least recently used call that may be closed. */
  function Victim(g: Registry, order: seq<SessionId>): (v: Option<SessionId>)
    ensures v.Some? ==> v.value in order && Evictable(g, v.value)
  {
    if order == [] then None
    else if Evictable(g, order[0]) then Some(order[0])
    else Victim(g, order[1..])
  }

  datatype Outcome = Opened(call: HeldRef) | SessionOpen | RegistryFull

  /** A request written into the call; one that is closed answers it with an error. */
  function Exchange(g: Registry, c: HeldRef): (g': Registry)
    requires c < |g.held|
    ensures |g'.held| == |g.held|
  {
    var call := g.held[c];
    if call.closed then g
    else WithHeld(g, c, call.(pending := call.pending + {call.nextId + 1}, nextId := call.nextId + 1))
  }

  function Touch(g: Registry, c: HeldRef): (g': Registry)
    requires c < |g.held|
    ensures g'.held == g.held
  {
    var s := g.held[c].session;
    if s in g.bySession && g.bySession[s] == c then g.(order := Dropping(g.order, s) + [s]) else g
  }

  /** A new held call, the entry made room for. */
  function Add(g: Registry, session: SessionId, principal: Option<Principal>): (g': Registry)
    ensures |g'.held| == |g.held| + 1
  {
    g.(held := g.held + [Held(session, principal, {}, map[], {}, 0, false, EMPTY)],
       bySession := g.bySession[session := |g.held|],
       order := g.order + [session])
  }

  /** The first request of a call, where its session is not held already and there is room for it. */
  function Open(g: Registry, session: SessionId, principal: Option<Principal>): (Registry, Outcome) {
    if session in g.bySession then (g, SessionOpen)
    else if |g.bySession| < g.max then (Exchange(Add(g, session, principal), |g.held|), Opened(|g.held|))
    else
      var victim := Victim(g, g.order);
      if victim.None? then (g, RegistryFull)
      else
        var room := Close(g, g.bySession[victim.value]);
        (Exchange(Add(room, session, principal), |g.held|), Opened(|g.held|))
  }

  datatype Verdict = Claimed(call: HeldRef) | NotHeld | WrongPrincipal | WrongSession

  /** The call a retry resumes. One that is refused for who sent it leaves the token where it is. */
  function RetryTarget(g: Registry, token: Token, named: Option<SessionId>, principal: Option<Principal>): (Registry, Verdict) {
    if token !in g.byToken || g.byToken[token] >= |g.held| then (g, NotHeld)
    else
      var c := g.byToken[token];
      if g.held[c].principal != principal then (g, WrongPrincipal)
      else if token in g.held[c].ownStates && named != Some(g.held[c].session) then (g, WrongSession)
      else (g.(byToken := g.byToken - {token}, claims := g.claims + [Claim(token, c)]), Claimed(c))
  }

  /**
   * The retry as the tool expects it: with its own state, where the token stood for one. It reaches the tool unless the
   * call is closed.
   */
  function ResumeToken(g: Registry, c: HeldRef, token: Token): (g': Registry)
    requires c < |g.held|
    ensures |g'.held| == |g.held|
  {
    var call := g.held[c];
    WithHeld(g, c, call.(tokens := call.tokens - {token}, ownStates := call.ownStates - {token}))
      .(given := if token in call.ownStates && !call.closed then g.given + [Own(token, c, call.ownStates[token])] else g.given)
  }

  function Deliver(g: Registry, k: nat): Registry
    requires k < |g.claims|
  {
    var claim := g.claims[k];
    var left := g.(claims := g.claims[..k] + g.claims[k + 1..]);
    if claim.call >= |g.held| then left
    else Exchange(Touch(ResumeToken(left, claim.call, claim.token), claim.call), claim.call)
  }

  /**
   * How the connection answers a request: with a round of the transport's, with one of the tool's own, with a demand
   * for input that names no state, or for good.
   */
  datatype Answering = TransportRound | OwnRound(state: OwnState) | Stateless | Ends

  function AnswerRequest(g: Registry, c: HeldRef, id: nat, answering: Answering): Registry
    requires c < |g.held|
  {
    var call := g.held[c];
    if id !in call.pending then g else
      var settled := call.(pending := call.pending - {id});
      match answering
      case Ends => Close(WithHeld(g, c, settled), c)
      case Stateless => WithHeld(g, c, settled)
      case TransportRound =>
        WithHeld(g, c, settled.(tokens := call.tokens + {g.minted}))
          .(byToken := g.byToken[g.minted := c], minted := g.minted + 1)
      case OwnRound(state) =>
        WithHeld(g, c, settled.(tokens := call.tokens + {g.minted}, ownStates := call.ownStates[g.minted := state]))
          .(byToken := g.byToken[g.minted := c], minted := g.minted + 1, issued := g.issued + [Own(g.minted, c, state)])
  }

  /** The request's client went away: it is no longer waited for. */
  function AbortRequest(g: Registry, c: HeldRef, id: nat): Registry
    requires c < |g.held|
  {
    WithHeld(g, c, g.held[c].(pending := g.held[c].pending - {id}))
  }

  /** Something happens at the call's transport. */
  function Move(g: Registry, c: HeldRef, op: Seams.Op): Registry
    requires c < |g.held|
  {
    WithHeld(g, c, g.held[c].(seam := Seams.Step(g.held[c].seam, op)))
  }

  datatype Occurrence =
    | Opens(session: SessionId, principal: Option<Principal>)
    | Retries(token: Token, named: Option<SessionId>, principal: Option<Principal>)
    | Delivers(claim: nat)
    | AnsweredBy(call: HeldRef, id: nat, answering: Answering)
    | Aborts(call: HeldRef, id: nat)
    | Closes(call: HeldRef)
    | Moves(call: HeldRef, op: Seams.Op)

  function Step(g: Registry, e: Occurrence): Registry {
    match e
    case Opens(session, principal) => Open(g, session, principal).0
    case Retries(token, named, principal) => RetryTarget(g, token, named, principal).0
    case Delivers(k) => if k < |g.claims| then Deliver(g, k) else g
    case AnsweredBy(c, id, answering) => if c < |g.held| then AnswerRequest(g, c, id, answering) else g
    case Aborts(c, id) => if c < |g.held| then AbortRequest(g, c, id) else g
    case Closes(c) => if c < |g.held| then Close(g, c) else g
    case Moves(c, op) => if c < |g.held| then Move(g, c, op) else g
  }

  function Run(g: Registry, events: seq<Occurrence>): Registry {
    if events == [] then g else Step(Run(g, events[..|events| - 1]), events[|events| - 1])
  }

  // ---------------------------------------------------------------------------------------------------
  // The entry's object.

  class HeldCallRegistry {
    const max: nat
    var held: seq<Held>
    var order: seq<SessionId>
    var bySession: map<SessionId, HeldRef>
    var byToken: map<Token, HeldRef>
    var minted: nat
    var claims: seq<Claim>
    ghost var issued: seq<Own>
    ghost var given: seq<Own>

    ghost function State(): Registry
      reads this
    {
      Registry(max, held, order, bySession, byToken, minted, claims, issued, given)
    }

    constructor (max: nat)
      ensures State() == Empty(max)
    {
      this.max := max;
      held, order, bySession, byToken, minted, claims, issued, given := [], [], map[], map[], 0, [], [], [];
    }

    method CloseCall(c: HeldRef)
      requires c < |held|
      modifies this
      ensures State() == Close(old(State()), c)
    {
      var call := held[c];
      if call.closed {
        return;
      }
      held := held[c := call.(closed := true, pending := {})];
      if call.session in bySession && bySession[call.session] == c {
        bySession := bySession - {call.session};
        order := Dropping(order, call.session);
      }
      DropTokens(c, call.tokens);
    }

    /** Those of the tokens that lead to the call lead nowhere. */
    method DropTokens(c: HeldRef, tokens: set<Token>)
      modifies this`byToken
      ensures byToken == map t | t in old(byToken) && !(t in tokens && old(byToken)[t] == c) :: old(byToken)[t]
    {
      var left := tokens;
      while left != {}
        invariant left <= tokens
        invariant forall t :: t in byToken <==> t in old(byToken) && !(t in tokens && t !in left && old(byToken)[t] == c)
        invariant forall t :: t in byToken ==> byToken[t] == old(byToken)[t]
        decreases |left|
      {
        var t :| t in left;
        left := left - {t};
        if t in byToken && byToken[t] == c {
          byToken := byToken - {t};
        }
      }
    }

    /** Find the least recently used call that may be closed. */
    method FindVictim() returns (victim: Option<SessionId>)
      ensures victim == Victim(State(), order)
    {
      var i := 0;
      while i < |order|
        invariant 0 <= i <= |order|
        invariant Victim(State(), order) == Victim(State(), order[i..])
      {
        var s := order[i];
        assert order[i..][0] == s && order[i..][1..] == order[i + 1..];
        if s in bySession && bySession[s] < |held| && held[bySession[s]].pending == {} && AtRest(held[bySession[s]].seam) {
          return Some(s);
        }
        i := i + 1;
      }
      victim := None;
    }

    method Write(c: HeldRef)
      requires c < |held|
      modifies this`held
      ensures State() == Exchange(old(State()), c)
    {
      var call := held[c];
      if !call.closed {
        var id := call.nextId + 1;
        held := held[c := call.(pending := call.pending + {id}, nextId := id)];
      }
    }

    method MoveLast(c: HeldRef)
      requires c < |held|
      modifies this`order
      ensures State() == Touch(old(State()), c)
    {
      var s := held[c].session;
      if s in bySession && bySession[s] == c {
        order := Dropping(order, s) + [s];
      }
    }

    method Register(session: SessionId, principal: Option<Principal>)
      modifies this`held, this`bySession, this`order
      ensures State() == Add(old(State()), session, principal)
    {
      bySession := bySession[session := |held|];
      held := held + [Held(session, principal, {}, map[], {}, 0, false, EMPTY)];
      order := order + [session];
    }

    /** Open a held call, first closing the least recently used one with nothing under way if the registry is full. */
    method OpenCall(session: SessionId, principal: Option<Principal>) returns (outcome: Outcome)
      modifies this
      ensures (State(), outcome) == Open(old(State()), session, principal)
    {
      if session in bySession {
        return SessionOpen;
      }
      if |bySession| >= max {
        var victim := FindVictim();
        if victim.None? {
          return RegistryFull;
        }
        CloseCall(bySession[victim.value]);
      }
      var c := |held|;
      Register(session, principal);
      Write(c);
      outcome := Opened(c);
    }

    method TargetOf(token: Token, named: Option<SessionId>, principal: Option<Principal>) returns (verdict: Verdict)
      modifies this`byToken, this`claims
      ensures (State(), verdict) == RetryTarget(old(State()), token, named, principal)
    {
      if token !in byToken || byToken[token] >= |held| {
        return NotHeld;
      }
      var c := byToken[token];
      if held[c].principal != principal {
        return WrongPrincipal;
      }
      if token in held[c].ownStates && named != Some(held[c].session) {
        return WrongSession;
      }
      byToken := byToken - {token};
      claims := claims + [Claim(token, c)];
      verdict := Claimed(c);
    }

    /** Consume a token, and give back the state it stood for. */
    method Consume(c: HeldRef, token: Token) returns (own: Option<OwnState>)
      requires c < |held|
      modifies this`held, this`given
      ensures State() == ResumeToken(old(State()), c, token)
      ensures own == if token in old(held)[c].ownStates then Some(old(held)[c].ownStates[token]) else None
    {
      var call := held[c];
      own := None;
      if token in call.ownStates {
        own := Some(call.ownStates[token]);
        given := if call.closed then given else given + [Own(token, c, call.ownStates[token])];
      }
      held := held[c := call.(tokens := call.tokens - {token}, ownStates := call.ownStates - {token})];
    }

    method DeliverClaim(k: nat)
      requires k < |claims|
      modifies this
      ensures State() == Deliver(old(State()), k)
    {
      var claim := claims[k];
      claims := claims[..k] + claims[k + 1..];
      if claim.call < |held| {
        var own := Consume(claim.call, claim.token);
        MoveLast(claim.call);
        Write(claim.call);
      }
    }

    method Issue(c: HeldRef, own: Option<OwnState>)
      requires c < |held|
      modifies this`held, this`byToken, this`minted, this`issued
      ensures var call := old(held)[c];
              State() == old(State()).(
                held := old(held)[c := call.(tokens := call.tokens + {old(minted)},
                                             ownStates := if own.None? then call.ownStates
                                                          else call.ownStates[old(minted) := own.value])],
                byToken := old(byToken)[old(minted) := c],
                minted := old(minted) + 1,
                issued := if own.None? then old(issued) else old(issued) + [Own(old(minted), c, own.value)])
    {
      var token, call := minted, held[c];
      minted := minted + 1;
      if own.Some? {
        held := held[c := call.(tokens := call.tokens + {token}, ownStates := call.ownStates[token := own.value])];
        issued := issued + [Own(token, c, own.value)];
      } else {
        held := held[c := call.(tokens := call.tokens + {token})];
      }
      byToken := byToken[token := c];
    }

    /** The client went away: its request is no longer waited for. */
    method Abort(c: HeldRef, id: nat)
      requires c < |held|
      modifies this`held
      ensures State() == AbortRequest(old(State()), c, id)
    {
      held := held[c := held[c].(pending := held[c].pending - {id})];
    }

    method TakeAnswer(c: HeldRef, id: nat, answering: Answering)
      requires c < |held|
      modifies this
      ensures State() == AnswerRequest(old(State()), c, id, answering)
    {
      if id !in held[c].pending {
        return;
      }
      held := held[c := held[c].(pending := held[c].pending - {id})];
      match answering
      case Ends => CloseCall(c);
      case Stateless =>
      case TransportRound => Issue(c, None);
      case OwnRound(state) => Issue(c, Some(state));
    }
  }
}
