/** The executor's session manager (apps/node-agent/src/runtime.ts): sessions are opened, turns started,
    finished and cancelled by interleaved asynchronous calls. A call runs undisturbed up to its `await`,
    so starting and finishing a turn are two separate steps. */
module SessionManager {
  import opened Common

  datatype Message = System(content: string) | User(content: string) | Assistant(content: string)

  /** A turn is known by its token (the abort controller); request ids come from outside. */
  datatype ActiveTurn = ActiveTurn(requestId: string, token: nat)

  /** History variable: one exchange per started turn. */
  datatype Exchange = Exchange(token: nat, message: string, reply: Option<string>)

  datatype Context = Context(prefix: seq<Message>, maxTurns: int, history: seq<Message>, activeTurn: Option<ActiveTurn>,
                             exchanges: seq<Exchange>)

  /** A turn whose engine call has not come back: the context object it works on and its request id. */
  datatype Flight = Flight(context: nat, requestId: string)

  /** `contexts` are all contexts ever opened, `sessions` says which one a session id stands for now. */
  datatype Manager = Manager(contexts: seq<Context>, sessions: map<string, nat>, flights: map<nat, Flight>, aborted: set<nat>, nextToken: nat)

  datatype Code = SessionNotOpen | TurnInProgress | SessionLimitReached

  datatype Started = Turn(token: nat) | Refused(code: Code)

  const EMPTY := Manager([], map[], map[], {}, 0)

  function UserCount(history: seq<Message>): nat {
    if history == [] then 0 else UserCount(history[..|history| - 1]) + (if history[|history| - 1].User? then 1 else 0)
  }

  function Prefix(system: string, instructions: string): seq<Message> {
    (if system == "" then [] else [System(system)]) + [System(instructions)]
  }

  function Limit(c: Context): int {
    Max(1, c.maxTurns)
  }

  function Open(m: Manager, sessionId: string, system: string, instructions: string, maxTurns: int): Manager {
    var prefix := Prefix(system, instructions);
    m.(contexts := m.contexts + [Context(prefix, maxTurns, prefix, None, [])], sessions := m.sessions[sessionId := |m.contexts|])
  }

  function StartResult(m: Manager, sessionId: string): Started {
    if sessionId !in m.sessions || m.sessions[sessionId] >= |m.contexts| then Refused(SessionNotOpen)
    else
      var c := m.contexts[m.sessions[sessionId]];
      if c.activeTurn.Some? then Refused(TurnInProgress)
      else if UserCount(c.history) >= Limit(c) then Refused(SessionLimitReached)
      else Turn(m.nextToken)
  }

  function StartIn(c: Context, token: nat, requestId: string, message: string): Context {
    c.(history := c.history + [User(message)], activeTurn := Some(ActiveTurn(requestId, token)),
       exchanges := c.exchanges + [Exchange(token, message, None)])
  }

  function Start(m: Manager, sessionId: string, requestId: string, message: string): Manager {
    if StartResult(m, sessionId).Refused? then m
    else
      var i := m.sessions[sessionId];
      m.(contexts := m.contexts[i := StartIn(m.contexts[i], m.nextToken, requestId, message)],
         flights := m.flights[m.nextToken := Flight(i, requestId)], nextToken := m.nextToken + 1)
  }

  /** The engine call comes back: the active turn is cleared if it carries the request id, and a reply is
      appended to the history. */
  function FinishIn(c: Context, requestId: string, reply: Option<string>): Context {
    var c1 := if c.activeTurn.Some? && c.activeTurn.value.requestId == requestId then c.(activeTurn := None) else c;
    if reply.None? then c1
    else
      c1.(history := c.history + [Assistant(reply.value)],
          exchanges := if c.exchanges == [] then [] else c.exchanges[|c.exchanges| - 1 := c.exchanges[|c.exchanges| - 1].(reply := reply)])
  }

  function Finish(m: Manager, token: nat, reply: Option<string>): Manager {
    if token !in m.flights || m.flights[token].context >= |m.contexts| then m
    else
      var f := m.flights[token];
      m.(contexts := m.contexts[f.context := FinishIn(m.contexts[f.context], f.requestId, reply)], flights := m.flights - {token})
  }

  function Cancelled(m: Manager, sessionId: string, requestId: string): Option<nat> {
    if sessionId !in m.sessions || m.sessions[sessionId] >= |m.contexts| then None
    else
      var c := m.contexts[m.sessions[sessionId]];
      if c.activeTurn.None? || c.activeTurn.value.requestId != requestId then None else Some(c.activeTurn.value.token)
  }

  function Cancel(m: Manager, sessionId: string, requestId: string): Manager {
    var t := Cancelled(m, sessionId, requestId);
    if t.None? then m else m.(aborted := m.aborted + {t.value})
  }

  // ---------------------------------------------------------------- what every step keeps

  /** User messages, each optionally followed immediately by its reply. */
  function Render(xs: seq<Exchange>): seq<Message> {
    if xs == [] then []
    else
      var last := xs[|xs| - 1];
      Render(xs[..|xs| - 1]) + (if last.reply.None? then [User(last.message)] else [User(last.message), Assistant(last.reply.value)])
  }

  ghost predicate SystemOnly(prefix: seq<Message>) {
    forall i :: 0 <= i < |prefix| ==> prefix[i].System?
  }

  /** The history is the system prefix followed by the exchanges, there are no more of them than turns
      allowed, and an active turn is the last exchange, still without a reply. */
  ghost predicate ContextOk(c: Context) {
    && SystemOnly(c.prefix) && c.history == c.prefix + Render(c.exchanges)
    && UserCount(c.history) == |c.exchanges| <= Limit(c)
    && (c.activeTurn.Some? ==> c.exchanges != [])
    && (c.activeTurn.Some? ==> c.exchanges[|c.exchanges| - 1].token == c.activeTurn.value.token)
    && (c.activeTurn.Some? ==> c.exchanges[|c.exchanges| - 1].reply.None?)
  }

  /** A turn is in flight exactly while it is the active turn of its context. */
  ghost predicate FlightsOk(m: Manager) {
    && (forall t :: t in m.flights ==> t < m.nextToken && m.flights[t].context < |m.contexts|)
    && (forall t :: t in m.flights ==> m.contexts[m.flights[t].context].activeTurn == Some(ActiveTurn(m.flights[t].requestId, t)))
    && (forall i :: 0 <= i < |m.contexts| && m.contexts[i].activeTurn.Some? ==>
          m.contexts[i].activeTurn.value.token in m.flights
          && m.flights[m.contexts[i].activeTurn.value.token] == Flight(i, m.contexts[i].activeTurn.value.requestId))
  }

  ghost predicate Inv(m: Manager) {
    && (forall s :: s in m.sessions ==> m.sessions[s] < |m.contexts|)
    && (forall i :: 0 <= i < |m.contexts| ==> ContextOk(m.contexts[i]))
    && FlightsOk(m)
  }

  lemma {:induction false} SystemHasNoUsers(prefix: seq<Message>)
    requires SystemOnly(prefix)
    ensures UserCount(prefix) == 0
  {
    if prefix != [] { SystemHasNoUsers(prefix[..|prefix| - 1]); }
  }

  lemma OpenOk(system: string, instructions: string, maxTurns: int)
    ensures var prefix := Prefix(system, instructions); ContextOk(Context(prefix, maxTurns, prefix, None, []))
  {
    var prefix := Prefix(system, instructions);
    SystemHasNoUsers(prefix);
    assert prefix + Render([]) == prefix;
  }

  lemma StartOk(c: Context, token: nat, requestId: string, message: string)
    requires ContextOk(c) && UserCount(c.history) < Limit(c)
    ensures ContextOk(StartIn(c, token, requestId, message))
  {
    var d := StartIn(c, token, requestId, message);
    assert d.exchanges[..|c.exchanges|] == c.exchanges;
    assert d.history[..|c.history|] == c.history;
    assert c.prefix + (Render(c.exchanges) + [User(message)]) == c.history + [User(message)];
  }

  lemma FinishOk(c: Context, requestId: string, token: nat, reply: Option<string>)
    requires ContextOk(c) && c.activeTurn == Some(ActiveTurn(requestId, token))
    ensures ContextOk(FinishIn(c, requestId, reply)) && FinishIn(c, requestId, reply).activeTurn.None?
  {
    if reply.Some? {
      var d, n := FinishIn(c, requestId, reply), |c.exchanges| - 1;
      assert d.exchanges[..n] == c.exchanges[..n];
      assert d.history[..|c.history|] == c.history;
      var rest, u, a := Render(c.exchanges[..n]), User(c.exchanges[n].message), Assistant(reply.value);
      assert c.prefix + (rest + [u]) + [a] == c.prefix + (rest + [u, a]);
    }
  }

  datatype Action =
    | DoOpen(sessionId: string, system: string, instructions: string, maxTurns: int)
    | DoStart(sessionId: string, requestId: string, message: string)
    | DoFinish(token: nat, reply: Option<string>)
    | DoCancel(sessionId: string, requestId: string)

  function Next(m: Manager, a: Action): Manager {
    match a
    case DoOpen(sessionId, system, instructions, maxTurns) => Open(m, sessionId, system, instructions, maxTurns)
    case DoStart(sessionId, requestId, message) => Start(m, sessionId, requestId, message)
    case DoFinish(token, reply) => Finish(m, token, reply)
    case DoCancel(sessionId, requestId) => Cancel(m, sessionId, requestId)
  }

  lemma StepKeeps(m: Manager, a: Action)
    requires Inv(m)
    ensures Inv(Next(m, a))
  {
    hide ContextOk;
    hide StartIn;
    hide FinishIn;
    match a
    case DoOpen(sessionId, system, instructions, maxTurns) => OpenOk(system, instructions, maxTurns);
    case DoStart(sessionId, requestId, message) => StartKeeps(m, sessionId, requestId, message);
    case DoFinish(token, reply) => FinishKeeps(m, token, reply);
    case DoCancel(sessionId, requestId) =>
  }

  lemma StartKeeps(m: Manager, sessionId: string, requestId: string, message: string)
    requires Inv(m)
    ensures Inv(Start(m, sessionId, requestId, message))
  {
    hide ContextOk;
    if StartResult(m, sessionId).Turn? {
      StartOk(m.contexts[m.sessions[sessionId]], m.nextToken, requestId, message);
    }
  }

  lemma FinishKeeps(m: Manager, token: nat, reply: Option<string>)
    requires Inv(m)
    ensures Inv(Finish(m, token, reply))
  {
    hide ContextOk;
    hide FinishIn;
    if token in m.flights {
      var f := m.flights[token];
      FinishOk(m.contexts[f.context], f.requestId, token, reply);
    }
  }

  function Run(m: Manager, actions: seq<Action>): Manager {
    if actions == [] then m else Next(Run(m, actions[..|actions| - 1]), actions[|actions| - 1])
  }

  lemma {:induction false} RunKeeps(actions: seq<Action>)
    ensures Inv(Run(EMPTY, actions))
  {
    hide Next;
    if actions != [] {
      RunKeeps(actions[..|actions| - 1]);
      StepKeeps(Run(EMPTY, actions[..|actions| - 1]), actions[|actions| - 1]);
    }
  }

  /** Under any interleaving: at most one turn of a context is in flight, there are no more user messages
      than turns allowed, and at least one is, and the history is the system prefix followed by user messages,
      each optionally followed immediately by the reply of its own turn. */
  lemma {:induction false} TurnsAreSerial(actions: seq<Action>)
    ensures var m := Run(EMPTY, actions);
      && (forall t, u :: t in m.flights && u in m.flights && m.flights[t].context == m.flights[u].context ==> t == u)
      && (forall i :: 0 <= i < |m.contexts| ==>
            && UserCount(m.contexts[i].history) == |m.contexts[i].exchanges|
            && |m.contexts[i].exchanges| <= (if m.contexts[i].maxTurns < 1 then 1 else m.contexts[i].maxTurns)
            && SystemOnly(m.contexts[i].prefix)
            && m.contexts[i].history == m.contexts[i].prefix + Render(m.contexts[i].exchanges))
  {
    hide Run;
    RunKeeps(actions);
  }

  /** A turn is in flight for the session, under this token and request id. */
  ghost predicate InFlight(m: Manager, sessionId: string, token: nat, requestId: string) {
    sessionId in m.sessions && token in m.flights && m.flights[token] == Flight(m.sessions[sessionId], requestId)
  }

  ghost predicate Busy(m: Manager, sessionId: string) {
    sessionId in m.sessions && exists t :: t in m.flights && m.flights[t].context == m.sessions[sessionId]
  }

  /** The contexts of other sessions stay as they are. */
  ghost predicate OnlyAt(m: Manager, n: Manager, i: nat) {
    && n.sessions == m.sessions && i < |m.contexts| == |n.contexts|
    && forall j :: 0 <= j < |m.contexts| && j != i ==> n.contexts[j] == m.contexts[j]
  }

  /** When a turn is refused, and what starting one does: in any reachable state, from the sessions, the turns
      in flight and the exchanges so far. */
  lemma {:induction false} StartsIff(actions: seq<Action>, sessionId: string, requestId: string, message: string)
    ensures var m := Run(EMPTY, actions);
      var r, n := StartResult(m, sessionId), Start(m, sessionId, requestId, message);
      && (r == Refused(SessionNotOpen) <==> sessionId !in m.sessions)
      && (r == Refused(TurnInProgress) <==> Busy(m, sessionId))
      && (r.Refused? ==> n == m)
      && (sessionId in m.sessions && !Busy(m, sessionId) ==>
            var i := m.sessions[sessionId];
            && i < |m.contexts|
            && var c := m.contexts[i];
              if |c.exchanges| >= (if c.maxTurns < 1 then 1 else c.maxTurns) then r == Refused(SessionLimitReached)
              else
                && r.Turn? && r.token !in m.flights && n.flights == m.flights[r.token := Flight(i, requestId)] && n.aborted == m.aborted
                && OnlyAt(m, n, i) && n.contexts[i].exchanges == c.exchanges + [Exchange(r.token, message, None)]
                && n.contexts[i].history == c.history + [User(message)])
  {
    hide Run;
    hide Render;
    RunKeeps(actions);
    var m := Run(EMPTY, actions);
    if sessionId in m.sessions {
      assert ContextOk(m.contexts[m.sessions[sessionId]]);
    }
  }

  /** A reply goes to the exchange of the very turn that finished, an engine failure to none; all other
      exchanges and contexts stay as they are, and the turn is no longer in flight. */
  lemma {:induction false} ReplyGoesToItsTurn(actions: seq<Action>, token: nat, reply: Option<string>)
    requires token in Run(EMPTY, actions).flights
    ensures var m, n := Run(EMPTY, actions), Finish(Run(EMPTY, actions), token, reply);
      var i := m.flights[token].context;
      && OnlyAt(m, n, i) && n.flights == m.flights - {token} && n.aborted == m.aborted
      && var xs, k := m.contexts[i].exchanges, |m.contexts[i].exchanges| - 1;
        && k >= 0 && xs[k].token == token && xs[k].reply.None? && n.contexts[i].exchanges == xs[k := xs[k].(reply := reply)]
        && n.contexts[i].history == m.contexts[i].history + (if reply.None? then [] else [Assistant(reply.value)])
  {
    hide Run;
    RunKeeps(actions);
    var m := Run(EMPTY, actions);
    assert ContextOk(m.contexts[m.flights[token].context]);
    hide Render;
    hide UserCount;
  }

  /** Cancelling aborts exactly the turn in flight for that session under that request id, if there is one,
      and changes nothing else. */
  lemma {:induction false} CancelAbortsOnlyItsTurn(actions: seq<Action>, sessionId: string, requestId: string)
    ensures var m, n := Run(EMPTY, actions), Cancel(Run(EMPTY, actions), sessionId, requestId);
      && n == m.(aborted := n.aborted)
      && (forall t :: t in n.aborted <==> t in m.aborted || InFlight(m, sessionId, t, requestId))
      && (Cancelled(m, sessionId, requestId).Some? <==> exists t :: InFlight(m, sessionId, t, requestId))
  {
    hide Run;
    RunKeeps(actions);
    var m := Run(EMPTY, actions);
    var t := Cancelled(m, sessionId, requestId);
    hide ContextOk;
    if t.Some? { assert InFlight(m, sessionId, t.value, requestId); }
  }

  class SessionRuntimeManager {
    var contexts: seq<Context>
    var sessions: map<string, nat>
    var flights: map<nat, Flight>
    var aborted: set<nat>
    var nextToken: nat

    function Value(): Manager
      reads this
    {
      Manager(contexts, sessions, flights, aborted, nextToken)
    }

    constructor ()
      ensures Value() == EMPTY
    {
      contexts, sessions, flights, aborted, nextToken := [], map[], map[], {}, 0;
    }

    method OpenSession(sessionId: string, system: string, instructions: string, maxTurns: int)
      modifies this
      ensures Value() == Open(old(Value()), sessionId, system, instructions, maxTurns)
      ensures sessions == old(sessions)[sessionId := |old(contexts)|] && |contexts| == |old(contexts)| + 1
      ensures var c := contexts[|old(contexts)|]; c.maxTurns == maxTurns && c.activeTurn.None? && c.exchanges == []
      ensures contexts[|old(contexts)|].history == if system == "" then [System(instructions)] else [System(system), System(instructions)]
      ensures contexts[..|old(contexts)|] == old(contexts)
      ensures old(Inv(Value())) ==> Inv(Value())
    {
      ghost var before := Value();
      var prefix := Prefix(system, instructions);
      sessions := sessions[sessionId := |contexts|];
      contexts := contexts + [Context(prefix, maxTurns, prefix, None, [])];
      assert Inv(before) ==> Inv(Value()) by {
        if Inv(before) { StepKeeps(before, DoOpen(sessionId, system, instructions, maxTurns)); }
      }
    }

    /** `runTurn` up to its await. */
    method BeginTurn(sessionId: string, requestId: string, message: string) returns (r: Started)
      modifies this
      ensures r == StartResult(old(Value()), sessionId) && Value() == Start(old(Value()), sessionId, requestId, message)
      ensures old(Inv(Value())) ==> Inv(Value())
    {
      ghost var before := Value();
      assert Inv(before) ==> Inv(Start(before, sessionId, requestId, message)) by {
        if Inv(before) { StartKeeps(before, sessionId, requestId, message); }
      }
      if sessionId !in sessions || sessions[sessionId] >= |contexts| {
        return Refused(SessionNotOpen);
      }
      var i := sessions[sessionId];
      var c := contexts[i];
      if c.activeTurn.Some? {
        return Refused(TurnInProgress);
      }
      if UserCount(c.history) >= Limit(c) {
        return Refused(SessionLimitReached);
      }
      r := Turn(nextToken);
      contexts := contexts[i := StartIn(c, nextToken, requestId, message)];
      flights := flights[nextToken := Flight(i, requestId)];
      nextToken := nextToken + 1;
    }

    /** `runTurn` after its await, with the engine's reply or none. */
    method EndTurn(token: nat, reply: Option<string>)
      modifies this
      ensures Value() == Finish(old(Value()), token, reply)
      ensures old(Inv(Value())) ==> Inv(Value())
    {
      ghost var before := Value();
      assert Inv(before) ==> Inv(Finish(before, token, reply)) by {
        if Inv(before) { FinishKeeps(before, token, reply); }
      }
      if token in flights && flights[token].context < |contexts| {
        var f := flights[token];
        contexts := contexts[f.context := FinishIn(contexts[f.context], f.requestId, reply)];
        flights := flights - {token};
      }
    }

    method CancelTurn(sessionId: string, requestId: string) returns (canceled: bool)
      modifies this`aborted
      ensures Value() == Cancel(old(Value()), sessionId, requestId)
      ensures canceled <==> Cancelled(old(Value()), sessionId, requestId).Some?
    {
      var t := Cancelled(Value(), sessionId, requestId);
      canceled := t.Some?;
      if canceled {
        aborted := aborted + {t.value};
      }
    }
  }
}
