/** Which calls the agent loop makes, and how it ends, from the answers it got: over whole attempts, with
    any number of blocks and resumptions, and for the calls also with crashes. */
module AgentCalls {
  import opened Common
  import opened AgentLoop
  import Text

  // ---------------------------------------------------------------- which calls may be made

  /** The answer asks for a call that may be made: of an allowed tool, named by an id that is not blank, with
      an object for input. */
  predicate Asks(cfg: Config, t: Turn) {
    && !t.expired && t.credits && t.reply.Call?
    && !Text.Blank(t.reply.toolId) && t.reply.toolId in cfg.allowed && t.reply.inputIsObject
  }

  /** And whose tool may be run. */
  predicate Runs(cfg: Config, t: Turn) {
    Asks(cfg, t) && (t.reply.toolId == "shell.run" ==> cfg.shellEnabled) && !t.reply.tool.Unsupported?
  }

  /** The call was asked for, in these words. */
  predicate AskedFor(cfg: Config, log: Log, m: Made) {
    && 0 <= m.turn < |log.answers| && Asks(cfg, log.answers[m.turn]) && 1 <= m.index <= cfg.maxToolCalls
    && var r := log.answers[m.turn].reply; m.toolId == r.toolId && m.inputIsObject == r.inputIsObject && m.input == r.input
  }

  ghost predicate LogOk(cfg: Config, log: Log) {
    && (forall m :: m in log.made ==> AskedFor(cfg, log, m))
    && (forall m :: m in log.ran ==> m in log.made && Runs(cfg, log.answers[m.turn]))
    && (forall m :: m in log.sent ==> m in log.ran && log.answers[m.turn].reply.tool.RemoteBlocked? && cfg.remoteAllowed)
  }

  ghost predicate WasMade(made: seq<Made>, index: nat, toolId: string) {
    exists m :: m in made && m.index == index && m.toolId == toolId
  }

  /** Everything in the history is of a call that was made, and what is pending has been sent. */
  ghost predicate StateOk(s: State, log: Log) {
    && (forall i :: 0 <= i < |s.history| ==>
          WasMade(log.made, s.history[i].callIndex, if s.history[i].ToolCall? then s.history[i].toolId else s.history[i].recorded.toolId))
    && (s.pending.Some? ==> WasMade(log.sent, s.pending.value.callIndex, s.pending.value.toolId))
  }

  /** The indexes handed out and dispatched are those of the calls made and sent. */
  ghost predicate Indexed(l: Ledger) {
    && |l.handedOut| == |l.log.made| && |l.dispatched| == |l.log.sent|
    && (forall i :: 0 <= i < |l.handedOut| ==> l.handedOut[i] == l.log.made[i].index)
    && (forall i :: 0 <= i < |l.dispatched| ==> l.dispatched[i] == l.log.sent[i].index)
  }

  ghost predicate CallsOk(cfg: Config, s: State, l: Ledger) {
    LogOk(cfg, l.log) && StateOk(s, l.log) && Indexed(l)
  }

  /** The log only grows. */
  predicate LogGrows(a: Log, b: Log) {
    a.answers <= b.answers && a.made <= b.made && a.ran <= b.ran && a.sent <= b.sent
  }

  lemma StateStays(s: State, a: Log, b: Log)
    requires StateOk(s, a) && LogGrows(a, b)
    ensures StateOk(s, b)
  {
    assert forall m :: m in a.made ==> m in b.made;
    assert forall m :: m in a.sent ==> m in b.sent;
  }

  lemma PersistOk(cfg: Config, s: State, log: Log)
    requires StateOk(s, log)
    ensures StateOk(Persist(cfg, s), log)
  {
    PersistSuffix(cfg, s);
    hide Persist;
    hide WasMade;
    var h := Persist(cfg, s).history;
    forall i | 0 <= i < |h|
      ensures h[i] == s.history[|s.history| - |h| + i]
    {
    }
  }

  lemma AnsweredOk(cfg: Config, s: State, l: Ledger, t: Turn)
    requires CallsOk(cfg, s, l)
    ensures CallsOk(cfg, s, Answered(l, t)) && CallsOk(cfg, s.(turns := s.turns + 1), Answered(l, t))
    ensures LogGrows(l.log, Answered(l, t).log)
  {
    hide Asks;
    hide Runs;
    hide WasMade;
  }

  /** The log after a call: made, perhaps run, perhaps sent. */
  function LogOf(log: Log, m: Made, ran: bool, sent: bool): Log {
    log.(made := log.made + [m], ran := if ran then log.ran + [m] else log.ran, sent := if sent then log.sent + [m] else log.sent)
  }

  lemma LogOfOk(cfg: Config, log: Log, m: Made, ran: bool, sent: bool)
    requires LogOk(cfg, log) && AskedFor(cfg, log, m)
    requires ran ==> Runs(cfg, log.answers[m.turn])
    requires sent ==> ran && log.answers[m.turn].reply.tool.RemoteBlocked? && cfg.remoteAllowed
    ensures LogOk(cfg, LogOf(log, m, ran, sent)) && LogGrows(log, LogOf(log, m, ran, sent))
  {
    hide Asks;
    hide Runs;
  }

  /** The last answer asks for the call. */
  lemma MakeCallOk(cfg: Config, nodeId: string, s: State, l: Ledger, t: Turn)
    requires CallsOk(cfg, s, l) && l.log.answers != [] && l.log.answers[|l.log.answers| - 1] == t && Asks(cfg, t)
    requires s.toolCalls < cfg.maxToolCalls
    ensures var it := MakeCall(cfg, nodeId, s, l, t.reply.toolId, t.reply.inputIsObject, t.reply.input, t.reply.tool);
      && CallsOk(cfg, it.state, it.ledger) && LogGrows(l.log, it.ledger.log)
      && it.ledger.log.answers == l.log.answers && it.ledger.llmRequests == l.llmRequests
  {
    hide LogOk;
    hide Persist;
    var Call(toolId, isObject, input, tool) := t.reply;
    var c, made := s.toolCalls + 1, MadeNow(s, l, toolId, isObject, input);
    assert AskedFor(cfg, l.log, made);
    hide Asks;
    LogOfOk(cfg, l.log, made, false, false);
    if Runs(cfg, t) { LogOfOk(cfg, l.log, made, true, false); }
    if Runs(cfg, t) && tool.RemoteBlocked? && cfg.remoteAllowed { LogOfOk(cfg, l.log, made, true, true); }
    var log1 := LogOf(l.log, made, false, false);
    HistoryOk(cfg, s, l.log, made, input);
    var s3 := Allocate(cfg, s, toolId, input);
    AfterCallOk(cfg, s3, l.log, made, input, tool);
    hide StateOk;
  }

  lemma HistoryOk(cfg: Config, s: State, log: Log, m: Made, input: string)
    requires StateOk(s, log) && m.index == s.toolCalls + 1
    ensures StateOk(Allocate(cfg, s, m.toolId, input), LogOf(log, m, false, false))
  {
    hide Persist;
    var next := LogOf(log, m, false, false);
    StateStays(s, log, next);
    var s2 := s.(toolCalls := m.index, history := s.history + [ToolCall(m.index, m.toolId, input)]);
    assert m in next.made;
    hide WasMade;
    assert WasMade(next.made, m.index, m.toolId) by { assert m in next.made; WasMadeBy(next.made, m); }
    PersistOk(cfg, s2, next);
  }

  lemma WasMadeBy(made: seq<Made>, m: Made)
    requires m in made
    ensures WasMade(made, m.index, m.toolId)
  {
  }

  /** What a call leaves in the state, however it ends. */
  lemma AfterCallOk(cfg: Config, s: State, log: Log, m: Made, input: string, tool: ToolOutcome)
    requires StateOk(s, LogOf(log, m, false, false))
    ensures forall ran, sent :: StateOk(Persist(cfg, s), LogOf(log, m, ran, sent))
    ensures forall r: Recorded, ran, sent :: r.toolId == m.toolId ==>
      StateOk(Persist(cfg, Record(s, m.index, r)), LogOf(log, m, ran, sent))
      && StateOk(s.(history := s.history + [ToolResult(m.index, r)]), LogOf(log, m, ran, sent))
    ensures forall ran :: StateOk(Persist(cfg, s.(pending := Some(Pending(m.toolId, input, m.index)))), LogOf(log, m, ran, true))
  {
    hide Persist;
    forall ran, sent
      ensures StateOk(s, LogOf(log, m, ran, sent)) && StateOk(Persist(cfg, s), LogOf(log, m, ran, sent))
    {
      StateStays(s, LogOf(log, m, false, false), LogOf(log, m, ran, sent));
      PersistOk(cfg, s, LogOf(log, m, ran, sent));
    }
    forall r: Recorded, ran, sent | r.toolId == m.toolId
      ensures StateOk(Persist(cfg, Record(s, m.index, r)), LogOf(log, m, ran, sent))
      ensures StateOk(s.(history := s.history + [ToolResult(m.index, r)]), LogOf(log, m, ran, sent))
    {
      var next := LogOf(log, m, ran, sent);
      WasMadeBy(next.made, m);
      hide WasMade;
      PersistOk(cfg, Record(s, m.index, r), next);
    }
    forall ran
      ensures StateOk(Persist(cfg, s.(pending := Some(Pending(m.toolId, input, m.index)))), LogOf(log, m, ran, true))
    {
      var next := LogOf(log, m, ran, true);
      WasMadeBy(next.sent, m);
      hide WasMade;
      PersistOk(cfg, s.(pending := Some(Pending(m.toolId, input, m.index))), next);
    }
  }

  /** A turn that is not answered, or whose answer is no call that may be made, leaves the log of calls alone. */
  lemma IterateStops(cfg: Config, nodeId: string, s: State, l: Ledger, t: Turn)
    requires !Asks(cfg, t) || s.toolCalls >= cfg.maxToolCalls || s.turns >= cfg.maxTurns
    ensures var it, s1 := Iterate(cfg, nodeId, s, l, t), s.(turns := s.turns + 1);
      && it.outcome.Some? && !it.outcome.value.BlockedOn?
      && it.ledger.handedOut == l.handedOut && it.ledger.dispatched == l.dispatched
      && ((it.state == Persist(cfg, s) && it.ledger.log == l.log)
          || ((it.state == s1 || it.state == Persist(cfg, s1)) && it.ledger.log == Answered(l, t).log))
  {
    hide Persist;
    hide MakeCall;
    hide Text.Trim;
    hide Text.Blank;
    if t.reply.Call? { Text.TrimBlank(t.reply.toolId); }
  }

  lemma IterateCalls(cfg: Config, nodeId: string, s: State, l: Ledger, t: Turn)
    requires Asks(cfg, t) && s.toolCalls < cfg.maxToolCalls && s.turns < cfg.maxTurns
    ensures Iterate(cfg, nodeId, s, l, t) ==
      MakeCall(cfg, nodeId, s.(turns := s.turns + 1), Answered(l, t).(llmRequests := l.llmRequests + 1),
               t.reply.toolId, t.reply.inputIsObject, t.reply.input, t.reply.tool)
  {
    hide Persist;
    hide MakeCall;
    hide Text.Trim;
    hide Text.Blank;
    Text.TrimBlank(t.reply.toolId);
  }

  /** Every turn keeps it. */
  lemma IterateOk(cfg: Config, nodeId: string, s: State, l: Ledger, t: Turn)
    requires CallsOk(cfg, s, l)
    ensures var it := Iterate(cfg, nodeId, s, l, t);
      && CallsOk(cfg, it.state, it.ledger) && LogGrows(l.log, it.ledger.log)
      && (it.ledger.log.answers == l.log.answers + [t] || it.ledger.log == l.log)
  {
    hide Iterate;
    AnsweredOk(cfg, s, l, t);
    var s1, l1 := s.(turns := s.turns + 1), Answered(l, t).(llmRequests := l.llmRequests + 1);
    if Asks(cfg, t) && s.toolCalls < cfg.maxToolCalls && s.turns < cfg.maxTurns {
      IterateCalls(cfg, nodeId, s, l, t);
      MakeCallOk(cfg, nodeId, s1, l1, t);
    } else {
      IterateStops(cfg, nodeId, s, l, t);
      PersistOk(cfg, s, l.log);
      PersistOk(cfg, s1, l1.log);
    }
  }

  /** Also a turn that is cut off. */
  lemma CutTurnOk(cfg: Config, nodeId: string, s: State, l: Ledger, t: Turn, cut: Cut)
    requires CallsOk(cfg, s, l)
    ensures var (s', l') := CutTurn(cfg, nodeId, s, l, t, cut); CallsOk(cfg, s', l')
  {
    hide Iterate;
    hide Asks;
    hide Runs;
    IterateOk(cfg, nodeId, s, l, t);
    AnsweredOk(cfg, s, l, t);
    var it := Iterate(cfg, nodeId, s, l, t);
    var log := it.ledger.log.(sent := l.log.sent);
    StateStays(s, l.log, log);
    hide StateOk;
    hide AskedFor;
    assert LogOk(cfg, log) by {
      assert forall m :: m in log.sent ==> m in it.ledger.log.sent;
    }
    assert Indexed(it.ledger.(dispatched := l.dispatched, log := log));
  }

  lemma {:induction false} CutLoopOk(cfg: Config, nodeId: string, s: State, l: Ledger, env: nat -> Turn, n: nat, cut: Cut)
    requires CallsOk(cfg, s, l)
    ensures var (s', l') := CutLoop(cfg, nodeId, s, l, env, n, cut); CallsOk(cfg, s', l')
    decreases n
  {
    hide CallsOk;
    hide Iterate;
    hide CutTurn;
    CutTurnOk(cfg, nodeId, s, l, env(s.turns), cut);
    CutTurnOk(cfg, nodeId, s, l, env(s.turns), AfterCheckpoint);
    var it := Iterate(cfg, nodeId, s, l, env(s.turns));
    IterateOk(cfg, nodeId, s, l, env(s.turns));
    if n > 0 && it.outcome.None? { CutLoopOk(cfg, nodeId, it.state, it.ledger, env, n - 1, cut); }
  }

  lemma {:induction false} LoopOk(cfg: Config, nodeId: string, s: State, l: Ledger, env: nat -> Turn)
    requires CallsOk(cfg, s, l)
    ensures var it := Loop(cfg, nodeId, s, l, env); CallsOk(cfg, it.state, it.ledger)
    decreases cfg.maxTurns - s.turns
  {
    hide CallsOk;
    hide Iterate;
    IterateOk(cfg, nodeId, s, l, env(s.turns));
    var it := Iterate(cfg, nodeId, s, l, env(s.turns));
    if it.outcome.None? { LoopOk(cfg, nodeId, it.state, it.ledger, env); }
  }

  /** The remote result is recorded for the call that was sent. */
  lemma ResumedOk(cfg: Config, s: State, l: Ledger, r: Remote)
    requires CallsOk(cfg, s, l) && s.pending.Some?
    ensures CallsOk(cfg, Resumed(cfg, s, r), l)
  {
    hide Persist;
    var p := s.pending.value;
    assert WasMade(l.log.made, p.callIndex, p.toolId) by {
      var m :| m in l.log.sent && m.index == p.callIndex && m.toolId == p.toolId;
      WasMadeBy(l.log.made, m);
    }
    hide WasMade;
    hide LogOk;
    PersistOk(cfg, Record(s, p.callIndex, Recorded(p.toolId, r.ok, r.output, if r.ok then None else r.error)).(pending := None), l.log);
  }

  lemma EventOk(cfg: Config, nodeId: string, s: State, l: Ledger, call: Invocation, crash: Crash)
    requires CallsOk(cfg, s, l)
    ensures var it := Invoke(cfg, nodeId, s, l, call); CallsOk(cfg, it.state, it.ledger)
    ensures var (s', l') := CutInvoke(cfg, nodeId, s, l, call, crash); CallsOk(cfg, s', l')
  {
    hide CallsOk;
    hide Resumed;
    hide Loop;
    hide CutLoop;
    var s1 := s;
    if call.remote.Some? && s.pending.Some? {
      ResumedOk(cfg, s, l, call.remote.value);
      s1 := Resumed(cfg, s, call.remote.value);
    }
    LoopOk(cfg, nodeId, s1, l, call.env);
    if crash.InLoop? { CutLoopOk(cfg, nodeId, s1, l, call.env, crash.turns, crash.cut); }
  }

  lemma {:induction false} AttemptOk(cfg: Config, nodeId: string, events: seq<Event>)
    ensures var p := AttemptWithCrashes(cfg, nodeId, events); CallsOk(cfg, p.state, p.ledger)
  {
    hide Invoke;
    hide CutInvoke;
    if events != [] {
      var p := AttemptWithCrashes(cfg, nodeId, events[..|events| - 1]);
      AttemptOk(cfg, nodeId, events[..|events| - 1]);
      hide CallsOk;
      match events[|events| - 1]
      case Returns(call) => EventOk(cfg, nodeId, p.state, p.ledger, call, InResume);
      case Dies(call, crash) => EventOk(cfg, nodeId, p.state, p.ledger, call, crash);
    }
  }

  /** What may be called at all. */
  predicate MayCall(cfg: Config, toolId: string) {
    toolId in cfg.allowed && exists i :: 0 <= i < |toolId| && !Text.IsSpace(toolId[i])
  }

  /** However often an invocation blocks, resumes or dies: every index handed out went to a call some answer
      asked for in these words, of an allowed tool whose id is not blank, with an object for input; the shell
      is never run unless enabled, nothing is sent unless remote calls are allowed, and whatever the persisted
      history or its pending call names is such a call. */
  ghost predicate OnlyAllowed(cfg: Config, s: State, l: Ledger) {
    && |l.handedOut| == |l.log.made| && |l.dispatched| == |l.log.sent|
    && (forall i :: 0 <= i < |l.handedOut| ==>
          var m := l.log.made[i]; m.index == l.handedOut[i] && MayCall(cfg, m.toolId) && m.inputIsObject)
    && (forall m :: m in l.log.made ==> 0 <= m.turn < |l.log.answers| && var r := l.log.answers[m.turn].reply;
          r.Call? && r.toolId == m.toolId && r.inputIsObject == m.inputIsObject && r.input == m.input)
    && (forall m :: m in l.log.ran ==> m in l.log.made && (m.toolId == "shell.run" ==> cfg.shellEnabled))
    && (forall i :: 0 <= i < |l.dispatched| ==> var m := l.log.sent[i]; m.index == l.dispatched[i] && m in l.log.ran)
    && (l.dispatched != [] ==> cfg.remoteAllowed)
    && (forall i :: 0 <= i < |s.history| ==>
          MayCall(cfg, if s.history[i].ToolCall? then s.history[i].toolId else s.history[i].recorded.toolId))
    && (s.pending.Some? ==> MayCall(cfg, s.pending.value.toolId) && s.pending.value.callIndex in l.dispatched)
  }

  lemma CallsAreAllowed(cfg: Config, s: State, l: Ledger)
    requires CallsOk(cfg, s, l)
    ensures OnlyAllowed(cfg, s, l)
  {
    hide Text.IsSpace;
    forall m | m in l.log.made
      ensures MayCall(cfg, m.toolId) && m.inputIsObject && AskedFor(cfg, l.log, m) && l.log.answers[m.turn].reply.Call?
    {
      assert AskedFor(cfg, l.log, m);
    }
    hide MayCall;
    hide Asks;
    assert forall i :: 0 <= i < |l.handedOut| ==> l.log.made[i] in l.log.made;
    forall i | 0 <= i < |s.history|
      ensures MayCall(cfg, if s.history[i].ToolCall? then s.history[i].toolId else s.history[i].recorded.toolId)
    {
      var m :| m in l.log.made && m.index == s.history[i].callIndex &&
        m.toolId == if s.history[i].ToolCall? then s.history[i].toolId else s.history[i].recorded.toolId;
    }
    forall m | m in l.log.ran
      ensures m in l.log.made && (m.toolId == "shell.run" ==> cfg.shellEnabled)
    {
      assert Runs(cfg, l.log.answers[m.turn]) && AskedFor(cfg, l.log, m);
    }
    assert forall i :: 0 <= i < |l.dispatched| ==> l.log.sent[i] in l.log.sent;
    assert l.dispatched != [] ==> l.log.sent[0] in l.log.sent;
    if s.pending.Some? {
      var m :| m in l.log.sent && m.index == s.pending.value.callIndex && m.toolId == s.pending.value.toolId;
      var i :| 0 <= i < |l.log.sent| && l.log.sent[i] == m;
      assert l.dispatched[i] == m.index && m in l.log.made;
    }
  }

  lemma AllowedDespiteCrashes(cfg: Config, nodeId: string, events: seq<Event>)
    ensures var p := AttemptWithCrashes(cfg, nodeId, events); OnlyAllowed(cfg, p.state, p.ledger)
  {
    hide AttemptWithCrashes;
    hide CallsOk;
    hide OnlyAllowed;
    AttemptOk(cfg, nodeId, events);
    var p := AttemptWithCrashes(cfg, nodeId, events);
    CallsAreAllowed(cfg, p.state, p.ledger);
  }

  lemma AllowedCalls(cfg: Config, nodeId: string, calls: seq<Invocation>)
    requires Resumable(cfg)
    ensures var it := Attempt(cfg, nodeId, calls); OnlyAllowed(cfg, it.state, it.ledger)
  {
    hide AttemptWithCrashes;
    hide Attempt;
    hide OnlyAllowed;
    var events := seq(|calls|, i requires 0 <= i < |calls| => Returns(calls[i]));
    NoCrashes(cfg, nodeId, calls, events);
    AllowedDespiteCrashes(cfg, nodeId, events);
  }
}
