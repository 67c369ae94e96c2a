/** How an attempt of the agent loop ends, from the answers it got alone: which answer is refused and with
    which words, which call fails, which one blocks, and that nothing else ends it but the clock, the turn
    limit, missing credentials or a remote result nobody waits for. */
module AgentEnds {
  import opened Common
  import opened AgentLoop
  import opened AgentCalls
  import Text

  // ---------------------------------------------------------------- what an answer leads to

  /** The answer is refused: no index is handed out, and the failure names the reason. */
  predicate Refused(cfg: Config, t: Turn, calls: nat, error: string) {
    if !t.credits then error == "CREDITS_EXHAUSTED"
    else
      match t.reply
      case LlmFailed(e) => error == e
      case NotAnEnvelope => error == "INVALID_AGENT_OUTPUT"
      case OtherType => error == "INVALID_AGENT_OUTPUT"
      case Final(valid) => !valid && error == "INVALID_AGENT_JSON_OUTPUT"
      case Call(toolId, inputIsObject, _, _) =>
        if Text.Blank(toolId) then error == "INVALID_AGENT_OUTPUT"
        else if toolId !in cfg.allowed then error == "TOOL_NOT_ALLOWED:" + toolId
        else if !inputIsObject then error == "INVALID_TOOL_INPUT"
        else calls >= cfg.maxToolCalls && error == "AGENT_MAX_TOOL_CALLS"
  }

  predicate Finishes(t: Turn) {
    t.credits && t.reply == Final(true)
  }

  /** The call gets an index, but the attempt fails with it. */
  predicate CallFails(cfg: Config, t: Turn, error: string) {
    && Asks(cfg, t)
    && if t.reply.toolId == "shell.run" && !cfg.shellEnabled then error == "TOOL_POLICY_DENIED:shell.run"
       else
         match t.reply.tool
         case Unsupported => error == "TOOL_NOT_SUPPORTED:" + t.reply.toolId
         case RemoteBlocked => !cfg.remoteAllowed && error == "TEAM_REMOTE_EXEC_NOT_SUPPORTED"
         case Finished(_, _, _) => false
  }

  predicate GoesOn(cfg: Config, t: Turn) {
    Runs(cfg, t) && t.reply.tool.Finished?
  }

  predicate Blocks(cfg: Config, t: Turn) {
    Runs(cfg, t) && t.reply.tool.RemoteBlocked? && cfg.remoteAllowed
  }

  /** The call that answer `k` asked for: the `k + 1`st. */
  predicate IsCall(m: Made, k: nat, t: Turn) {
    t.reply.Call? && m == Made(k, k + 1, t.reply.toolId, t.reply.inputIsObject, t.reply.input)
  }

  /** The first `n` answers were calls, made and run. */
  ghost predicate Called(cfg: Config, log: Log, n: nat) {
    && n <= |log.answers| && n <= |log.made| && n <= |log.ran| && n <= cfg.maxToolCalls
    && forall k :: 0 <= k < n ==>
         && (GoesOn(cfg, log.answers[k]) || Blocks(cfg, log.answers[k]))
         && IsCall(log.made[k], k, log.answers[k]) && log.ran[k] == log.made[k]
  }

  /** Every answer so far was, and each took a turn. */
  ghost predicate Going(cfg: Config, s: State, l: Ledger) {
    s.turns == s.toolCalls == |l.log.answers| == |l.log.made| == |l.log.ran| && Called(cfg, l.log, s.turns)
  }

  /** It was the last answer that ended the attempt, the `n` before it having been calls. */
  ghost predicate EndedBy(cfg: Config, nodeId: string, n: nat, l: Ledger, o: Outcome) {
    && |l.log.answers| == n + 1 && !l.log.answers[n].expired && Called(cfg, l.log, n)
    && var t := l.log.answers[n];
      match o
      case Done => Finishes(t) && |l.log.made| == n
      case BlockedOn(id, c) => Blocks(cfg, t) && c == n + 1 == |l.log.made| <= cfg.maxToolCalls && id == nodeId + ":tool:" + Text.Decimal(c)
      case FailedWith(e) =>
        || (Refused(cfg, t, n, e) && |l.log.made| == n)
        || (CallFails(cfg, t, e) && n < cfg.maxToolCalls && |l.log.made| == n + 1 && IsCall(l.log.made[n], n, t))
  }

  // ---------------------------------------------------------------- one turn

  /** The table of one turn. */
  ghost predicate TurnIs(cfg: Config, nodeId: string, s: State, l: Ledger, t: Turn, it: Iteration) {
    if t.expired then it.outcome == Some(FailedWith("LLM_TIMEOUT")) && it.ledger == l && it.state == Persist(cfg, s)
    else if s.turns >= cfg.maxTurns then it.outcome == Some(FailedWith("AGENT_MAX_TURNS")) && it.ledger == l && it.state == Persist(cfg, s)
    else
      && it.state.turns == s.turns + 1 && it.ledger.log.answers == l.log.answers + [t]
      && if Asks(cfg, t) && s.toolCalls < cfg.maxToolCalls then
           && it.state.toolCalls == s.toolCalls + 1
           && var m := Made(|l.log.answers|, s.toolCalls + 1, t.reply.toolId, t.reply.inputIsObject, t.reply.input);
             && it.ledger.log.made == l.log.made + [m]
             && it.ledger.log.ran == l.log.ran + (if Runs(cfg, t) then [m] else [])
             && (match it.outcome
                 case None => GoesOn(cfg, t)
                 case Some(BlockedOn(id, c)) => Blocks(cfg, t) && c == s.toolCalls + 1 && id == nodeId + ":tool:" + Text.Decimal(c)
                 case Some(FailedWith(e)) => CallFails(cfg, t, e)
                 case Some(Done) => false)
         else
           && it.state.toolCalls == s.toolCalls && it.ledger.log.made == l.log.made && it.ledger.log.ran == l.log.ran
           && (match it.outcome
               case Some(Done) => Finishes(t)
               case Some(FailedWith(e)) => Refused(cfg, t, s.toolCalls, e)
               case _ => false)
  }

  lemma CallIs(cfg: Config, nodeId: string, s: State, l: Ledger, t: Turn)
    requires Inv(cfg, s, l) && Asks(cfg, t) && s.toolCalls < cfg.maxToolCalls && l.log.answers != []
    ensures var it := MakeCall(cfg, nodeId, s, l, t.reply.toolId, t.reply.inputIsObject, t.reply.input, t.reply.tool);
      && it.state.turns == s.turns && it.state.toolCalls == s.toolCalls + 1 && it.ledger.log.answers == l.log.answers
      && var m := Made(|l.log.answers| - 1, s.toolCalls + 1, t.reply.toolId, t.reply.inputIsObject, t.reply.input);
        && it.ledger.log.made == l.log.made + [m]
        && it.ledger.log.ran == l.log.ran + (if Runs(cfg, t) then [m] else [])
        && (match it.outcome
            case None => GoesOn(cfg, t)
            case Some(BlockedOn(id, c)) => Blocks(cfg, t) && c == s.toolCalls + 1 && id == nodeId + ":tool:" + Text.Decimal(c)
            case Some(FailedWith(e)) => CallFails(cfg, t, e)
            case Some(Done) => false)
  {
    AllocateInv(cfg, s, l, t.reply.toolId, t.reply.input);
    hide Inv;
    hide Persist;
    hide Allocate;
    match t.reply.tool
    case Unsupported =>
    case RemoteBlocked =>
    case Finished(_, _, _) =>
  }

  lemma TurnTable(cfg: Config, nodeId: string, s: State, l: Ledger, t: Turn)
    requires Inv(cfg, s, l)
    ensures TurnIs(cfg, nodeId, s, l, t, Iterate(cfg, nodeId, s, l, t))
  {
    hide Persist;
    hide MakeCall;
    hide Text.Trim;
    hide Text.Blank;
    hide Valid;
    if t.reply.Call? { Text.TrimBlank(t.reply.toolId); }
    if !t.expired && s.turns < cfg.maxTurns && Asks(cfg, t) && s.toolCalls < cfg.maxToolCalls {
      var s1, l1 := s.(turns := s.turns + 1), Answered(l, t).(llmRequests := l.llmRequests + 1);
      TurnValid(s);
      IterateCalls(cfg, nodeId, s, l, t);
      CallIs(cfg, nodeId, s1, l1, t);
    }
  }

  // ---------------------------------------------------------------- one invocation

  lemma OneTurn(cfg: Config, nodeId: string, s: State, l: Ledger, t: Turn)
    requires Inv(cfg, s, l) && Going(cfg, s, l)
    ensures var it := Iterate(cfg, nodeId, s, l, t);
      if t.expired || s.turns >= cfg.maxTurns then
        && Going(cfg, it.state, it.ledger) && it.ledger == l
        && it.outcome == Some(FailedWith(if t.expired then "LLM_TIMEOUT" else "AGENT_MAX_TURNS")) && it.state.turns == s.turns
      else
        && it.ledger.log.answers == l.log.answers + [t] && it.state.turns == s.turns + 1
        && (it.outcome.Some? ==> EndedBy(cfg, nodeId, s.turns, it.ledger, it.outcome.value))
        && (it.outcome.None? ==> GoesOn(cfg, t))
        && (it.outcome.None? || it.outcome.value.BlockedOn? ==> Going(cfg, it.state, it.ledger))
  {
    hide Iterate;
    hide Persist;
    TurnTable(cfg, nodeId, s, l, t);
    hide Inv;
    hide Refused;
    hide CallFails;
    hide Text.Blank;
    hide Text.Decimal;
  }

  /** The turns of an invocation are answered one after the other, and all but the last of them were calls
      that went on. */
  ghost predicate AnsweredBy(cfg: Config, s: State, l: Ledger, env: nat -> Turn, it: Iteration) {
    && s.turns <= it.state.turns == |it.ledger.log.answers| && l.log.answers <= it.ledger.log.answers
    && (forall k :: s.turns <= k < it.state.turns ==> it.ledger.log.answers[k] == env(k))
    && (forall k :: s.turns <= k < it.state.turns - 1 ==> GoesOn(cfg, env(k)))
  }

  /** Nothing but the clock or the limit on turns ended it. */
  ghost predicate RanOut(cfg: Config, env: nat -> Turn, it: Iteration) {
    && Going(cfg, it.state, it.ledger)
    && if env(it.state.turns).expired then it.outcome == Some(FailedWith("LLM_TIMEOUT"))
       else it.state.turns >= cfg.maxTurns && it.outcome == Some(FailedWith("AGENT_MAX_TURNS"))
  }

  ghost predicate LoopEnds(cfg: Config, nodeId: string, s: State, l: Ledger, env: nat -> Turn, it: Iteration) {
    && AnsweredBy(cfg, s, l, env, it) && it.outcome.Some?
    && (RanOut(cfg, env, it)
        || (s.turns < it.state.turns && EndedBy(cfg, nodeId, it.state.turns - 1, it.ledger, it.outcome.value)))
    && (it.outcome.value.BlockedOn? ==> Going(cfg, it.state, it.ledger))
  }

  lemma {:induction false} LoopIs(cfg: Config, nodeId: string, s: State, l: Ledger, env: nat -> Turn)
    requires Inv(cfg, s, l) && Going(cfg, s, l)
    ensures LoopEnds(cfg, nodeId, s, l, env, Loop(cfg, nodeId, s, l, env))
    decreases cfg.maxTurns - s.turns
  {
    hide Iterate;
    hide Inv;
    hide Called;
    hide EndedBy;
    hide GoesOn;
    OneTurn(cfg, nodeId, s, l, env(s.turns));
    IterateInv(cfg, nodeId, s, l, env(s.turns));
    var it := Iterate(cfg, nodeId, s, l, env(s.turns));
    if it.outcome.None? {
      LoopIs(cfg, nodeId, it.state, it.ledger, env);
    }
  }

  lemma ResumedGoing(cfg: Config, s: State, l: Ledger, r: Remote)
    requires Going(cfg, s, l) && s.pending.Some?
    ensures Going(cfg, Resumed(cfg, s, r), l)
  {
    hide Called;
    ResumedCounters(cfg, s, r);
    hide Resumed;
  }

  /** How an invocation ends that goes on with an attempt: from its remote result, its credentials and the
      answers it gets. */
  ghost predicate InvocationEnds(cfg: Config, nodeId: string, s: State, l: Ledger, call: Invocation, it: Iteration) {
    if call.remote.Some? && s.pending.None? then it == Iteration(s, l, Some(FailedWith("REMOTE_RESULT_UNEXPECTED")))
    else if !call.authorised then
      && it.ledger == l && it.state.turns == s.turns && it.outcome == Some(FailedWith("LLM_AUTH_NOT_CONFIGURED"))
      && Going(cfg, it.state, it.ledger)
    else LoopEnds(cfg, nodeId, s, l, call.env, it)
  }

  lemma InvokeIs(cfg: Config, nodeId: string, s: State, l: Ledger, call: Invocation)
    requires Inv(cfg, s, l) && Going(cfg, s, l)
    ensures InvocationEnds(cfg, nodeId, s, l, call, Invoke(cfg, nodeId, s, l, call))
  {
    hide Inv;
    hide Resumed;
    hide Loop;
    var s1 := s;
    if call.remote.Some? && s.pending.Some? {
      ResumedInv(cfg, s, l, call.remote.value);
      ResumedGoing(cfg, s, l, call.remote.value);
      ResumedCounters(cfg, s, call.remote.value);
      s1 := Resumed(cfg, s, call.remote.value);
    }
    LoopIs(cfg, nodeId, s1, l, call.env);
    hide Called;
    hide EndedBy;
    hide GoesOn;
  }

  // ---------------------------------------------------------------- a whole attempt

  /** No answer ended the attempt: the clock did, or the limit on turns, or an invocation without
      credentials, or with a remote result that no call was waiting for. */
  ghost predicate EndedOtherwise(cfg: Config, it: Iteration) {
    && Going(cfg, it.state, it.ledger) && it.outcome.Some? && it.outcome.value.FailedWith?
    && (it.outcome.value.error in {"LLM_TIMEOUT", "LLM_AUTH_NOT_CONFIGURED", "REMOTE_RESULT_UNEXPECTED"}
        || (it.outcome.value.error == "AGENT_MAX_TURNS" && it.state.turns >= cfg.maxTurns))
  }

  /** Where an attempt stands after its invocations. */
  ghost predicate Stands(cfg: Config, nodeId: string, it: Iteration) {
    && |it.ledger.log.answers| == it.state.turns
    && (it.outcome.None? || it.outcome.value.BlockedOn? ==> Going(cfg, it.state, it.ledger))
    && (it.outcome.Some? ==>
          EndedOtherwise(cfg, it) || (it.state.turns > 0 && EndedBy(cfg, nodeId, it.state.turns - 1, it.ledger, it.outcome.value)))
  }

  lemma InvocationStands(cfg: Config, nodeId: string, s: State, l: Ledger, call: Invocation, it: Iteration)
    requires Going(cfg, s, l) && InvocationEnds(cfg, nodeId, s, l, call, it)
    ensures it.outcome.Some? && Stands(cfg, nodeId, it)
  {
    hide Called;
    hide EndedBy;
    hide GoesOn;
  }

  lemma {:induction false} AttemptIs(cfg: Config, nodeId: string, calls: seq<Invocation>)
    requires Resumable(cfg)
    ensures var it := Attempt(cfg, nodeId, calls);
      && Inv(cfg, it.state, it.ledger) && Stands(cfg, nodeId, it)
      && (it.outcome.None? <==> calls == []) && (calls == [] ==> it.state.turns == 0)
  {
    hide Invoke;
    hide Inv;
    AttemptInv(cfg, nodeId, calls);
    if calls != [] {
      var before, call := Attempt(cfg, nodeId, calls[..|calls| - 1]), calls[|calls| - 1];
      AttemptIs(cfg, nodeId, calls[..|calls| - 1]);
      if before.outcome.None? || before.outcome.value.BlockedOn? {
        InvokeIs(cfg, nodeId, before.state, before.ledger, call);
        InvocationStands(cfg, nodeId, before.state, before.ledger, call, Invoke(cfg, nodeId, before.state, before.ledger, call));
      }
      hide Stands;
    }
  }

  /** The last answer decides: the attempt is done exactly if it is a valid final answer, given in time and
      with credits; a refused one has the attempt fail for its reason and hands out no index; a call that may
      not be run has it fail with the index handed out. */
  ghost predicate DecidedBy(cfg: Config, n: nat, t: Turn, handedOut: nat, o: Outcome) {
    && !t.expired && n < cfg.maxTurns
    && (o == Done <==> t.credits && t.reply == Final(true))
    && (forall e :: Refused(cfg, t, n, e) ==> o == FailedWith(e) && handedOut == n)
    && (forall e :: CallFails(cfg, t, e) && n < cfg.maxToolCalls ==> o == FailedWith(e) && handedOut == n + 1)
  }

  lemma OtherwiseDecided(cfg: Config, it: Iteration)
    requires EndedOtherwise(cfg, it) && 0 < it.state.turns <= cfg.maxTurns
    ensures var n := it.state.turns - 1; DecidedBy(cfg, n, it.ledger.log.answers[n], |it.ledger.log.made|, it.outcome.value)
  {
    hide Text.Blank;
  }

  lemma EndDecided(cfg: Config, nodeId: string, n: nat, l: Ledger, o: Outcome)
    requires EndedBy(cfg, nodeId, n, l, o) && n < cfg.maxTurns
    ensures DecidedBy(cfg, n, l.log.answers[n], |l.log.made|, o)
  {
    hide Text.Blank;
    hide Text.Decimal;
    hide Called;
  }

  lemma LastAnswerDecides(cfg: Config, nodeId: string, calls: seq<Invocation>)
    requires Resumable(cfg) && calls != []
    ensures var it := Attempt(cfg, nodeId, calls); var n := |it.ledger.log.answers|;
      if n == 0 then it.outcome != Some(Done) && it.ledger.handedOut == []
      else it.outcome.Some? && DecidedBy(cfg, n - 1, it.ledger.log.answers[n - 1], |it.ledger.handedOut|, it.outcome.value)
  {
    hide Attempt;
    AttemptIs(cfg, nodeId, calls);
    var it := Attempt(cfg, nodeId, calls);
    AllowedCalls(cfg, nodeId, calls);
    assert |it.ledger.handedOut| == |it.ledger.log.made|;
    hide OnlyAllowed;
    hide DecidedBy;
    hide Called;
    if it.state.turns > 0 {
      if EndedOtherwise(cfg, it) {
        OtherwiseDecided(cfg, it);
      } else {
        EndDecided(cfg, nodeId, it.state.turns - 1, it.ledger, it.outcome.value);
      }
    }
  }

  /** Answers that lead from turn `from` to a valid final answer in turn `n`, within time, turns, calls and
      credits. */
  ghost predicate GoodRun(cfg: Config, env: nat -> Turn, from: nat, n: nat) {
    && from <= n < cfg.maxTurns && n <= cfg.maxToolCalls
    && (forall k :: from <= k < n ==> GoesOn(cfg, env(k)))
    && !env(n).expired && env(n).credits && env(n).reply == Final(true)
  }

  lemma TurnDecides(cfg: Config, nodeId: string, s: State, l: Ledger, t: Turn)
    requires Inv(cfg, s, l)
    ensures var o := Iterate(cfg, nodeId, s, l, t).outcome;
      && (o == Some(Done) <==> !t.expired && s.turns < cfg.maxTurns && t.credits && t.reply == Final(true))
      && (o.None? <==> !t.expired && s.turns < cfg.maxTurns && s.toolCalls < cfg.maxToolCalls && GoesOn(cfg, t))
  {
    hide Iterate;
    TurnTable(cfg, nodeId, s, l, t);
    hide Inv;
    hide Text.Blank;
    hide Text.Decimal;
  }

  lemma {:induction false} LoopDoneIff(cfg: Config, nodeId: string, s: State, l: Ledger, env: nat -> Turn)
    requires Inv(cfg, s, l) && Going(cfg, s, l)
    ensures Loop(cfg, nodeId, s, l, env).outcome == Some(Done) <==> exists n :: GoodRun(cfg, env, s.turns, n)
    decreases cfg.maxTurns - s.turns
  {
    var it, t := Iterate(cfg, nodeId, s, l, env(s.turns)), env(s.turns);
    hide Iterate;
    hide Inv;
    OneTurn(cfg, nodeId, s, l, t);
    IterateInv(cfg, nodeId, s, l, t);
    TurnDecides(cfg, nodeId, s, l, t);
    assert t.reply == Final(true) ==> !GoesOn(cfg, t);
    assert GoesOn(cfg, t) ==> !t.expired;
    assert s.turns == s.toolCalls <= cfg.maxToolCalls;
    hide Going;
    hide EndedBy;
    hide GoesOn;
    if it.outcome.None? {
      LoopDoneIff(cfg, nodeId, it.state, it.ledger, env);
      assert forall n :: GoodRun(cfg, env, it.state.turns, n) ==> GoodRun(cfg, env, s.turns, n);
      assert forall n :: GoodRun(cfg, env, s.turns, n) ==> GoodRun(cfg, env, it.state.turns, n);
    } else if it.outcome == Some(Done) {
      assert GoodRun(cfg, env, s.turns, s.turns);
    }
  }

  /** An invocation of an attempt that is new or blocked is done exactly if it has credentials, brings a
      remote result only for a call that waits for one, and is led to a valid final answer in time. */
  lemma DoneIff(cfg: Config, nodeId: string, calls: seq<Invocation>, call: Invocation)
    requires Resumable(cfg)
    requires var o := Attempt(cfg, nodeId, calls).outcome; o.None? || o.value.BlockedOn?
    ensures var before := Attempt(cfg, nodeId, calls).state;
      Attempt(cfg, nodeId, calls + [call]).outcome == Some(Done) <==>
        && call.authorised && (call.remote.Some? ==> before.pending.Some?)
        && exists n :: GoodRun(cfg, call.env, before.turns, n)
  {
    AttemptIs(cfg, nodeId, calls);
    var before := Attempt(cfg, nodeId, calls);
    assert (calls + [call])[..|calls|] == calls;
    assert Attempt(cfg, nodeId, calls + [call]) == Invoke(cfg, nodeId, before.state, before.ledger, call);
    hide Attempt;
    hide Inv;
    hide Resumed;
    hide Loop;
    hide GoodRun;
    var s := before.state;
    if call.remote.Some? && s.pending.Some? {
      ResumedInv(cfg, s, before.ledger, call.remote.value);
      ResumedGoing(cfg, s, before.ledger, call.remote.value);
      ResumedCounters(cfg, s, call.remote.value);
      s := Resumed(cfg, s, call.remote.value);
    }
    LoopDoneIff(cfg, nodeId, s, before.ledger, call.env);
  }

  // ---------------------------------------------------------------- the budget of the kept state

  /** The history is within the budget, or nothing is left of it. */
  ghost predicate Fitting(cfg: Config, s: State) {
    s.history == [] || (cfg.size(s).Some? && cfg.size(s).value <= cfg.maxRuntimeChars)
  }

  /** Every state can be serialised, and no history outgrows the rounds of the trimming. */
  ghost predicate Trimmable(cfg: Config) {
    cfg.persists && 2 * cfg.maxToolCalls < 10000 && forall s :: cfg.size(s).Some?
  }

  /** At most two entries per call, and one less while a call is pending. */
  predicate Short(cfg: Config, s: State) {
    && |s.history| <= 2 * s.toolCalls && s.toolCalls <= cfg.maxToolCalls
    && (s.pending.Some? ==> |s.history| < 2 * s.toolCalls)
  }

  lemma PersistFits(cfg: Config, s: State)
    requires Trimmable(cfg) && Short(cfg, s)
    ensures Fitting(cfg, Persist(cfg, s)) && Short(cfg, Persist(cfg, s))
    ensures |Persist(cfg, s).history| <= |s.history|
  {
    hide TrimState;
    PersistSuffix(cfg, s);
    var n := TrimIsOptimal(cfg, s);
  }

  lemma CallFits(cfg: Config, nodeId: string, s: State, l: Ledger, t: Turn)
    requires Trimmable(cfg) && Short(cfg, s) && Inv(cfg, s, l) && t.reply.Call? && s.toolCalls < cfg.maxToolCalls
    ensures var it := MakeCall(cfg, nodeId, s, l, t.reply.toolId, t.reply.inputIsObject, t.reply.input, t.reply.tool);
      Fitting(cfg, it.state) && Short(cfg, it.state)
  {
    var Call(toolId, _, input, tool) := t.reply;
    AllocateInv(cfg, s, l, toolId, input);
    hide Inv;
    var c := s.toolCalls + 1;
    PersistFits(cfg, s.(toolCalls := c, history := s.history + [ToolCall(c, toolId, input)]));
    AllocatedShort(cfg, s, toolId, input);
    var s3 := Allocate(cfg, s, toolId, input);
    hide Allocate;
    hide Trimmable;
    hide Persist;
    hide Fitting;
    PersistFits(cfg, s3);
    PersistFits(cfg, s3.(pending := Some(Pending(toolId, input, c))));
    if tool.Finished? { PersistFits(cfg, Record(s3, c, Recorded(toolId, tool.ok, tool.output, if tool.ok then None else tool.error))); }
  }

  lemma AllocatedShort(cfg: Config, s: State, toolId: string, input: string)
    requires Short(cfg, s) && s.toolCalls < cfg.maxToolCalls
    ensures var t := Allocate(cfg, s, toolId, input); |t.history| < 2 * t.toolCalls && Short(cfg, t) && (t.pending.Some? ==> |t.history| + 1 < 2 * t.toolCalls)
  {
    hide TrimState;
    PersistSuffix(cfg, s.(toolCalls := s.toolCalls + 1, history := s.history + [ToolCall(s.toolCalls + 1, toolId, input)]));
  }

  lemma TurnFits(cfg: Config, nodeId: string, s: State, l: Ledger, t: Turn)
    requires Trimmable(cfg) && Short(cfg, s) && Inv(cfg, s, l)
    ensures var it := Iterate(cfg, nodeId, s, l, t); Short(cfg, it.state) && (it.outcome != Some(Done) ==> Fitting(cfg, it.state))
  {
    hide Iterate;
    hide Fitting;
    hide Trimmable;
    var s1, l1 := s.(turns := s.turns + 1), Answered(l, t).(llmRequests := l.llmRequests + 1);
    if Asks(cfg, t) && s.toolCalls < cfg.maxToolCalls && s.turns < cfg.maxTurns {
      TurnValid(s);
      IterateCalls(cfg, nodeId, s, l, t);
      CallFits(cfg, nodeId, s1, l1, t);
    } else {
      TurnTable(cfg, nodeId, s, l, t);
      IterateStops(cfg, nodeId, s, l, t);
      FailureFits(cfg, nodeId, s, l, t);
      PersistFits(cfg, s);
      PersistFits(cfg, s1);
    }
  }

  /** A turn that ends the attempt without being done leaves the state persisted. */
  lemma FailureFits(cfg: Config, nodeId: string, s: State, l: Ledger, t: Turn)
    requires !Asks(cfg, t) || s.toolCalls >= cfg.maxToolCalls || s.turns >= cfg.maxTurns
    ensures var it := Iterate(cfg, nodeId, s, l, t);
      it.outcome != Some(Done) ==> it.state == Persist(cfg, s) || it.state == Persist(cfg, s.(turns := s.turns + 1))
  {
    hide Persist;
    hide MakeCall;
    hide Text.Trim;
    hide Text.Blank;
    if t.reply.Call? { Text.TrimBlank(t.reply.toolId); }
  }

  lemma {:induction false} LoopFits(cfg: Config, nodeId: string, s: State, l: Ledger, env: nat -> Turn)
    requires Trimmable(cfg) && Short(cfg, s) && Inv(cfg, s, l)
    ensures var it := Loop(cfg, nodeId, s, l, env); Short(cfg, it.state) && (it.outcome != Some(Done) ==> Fitting(cfg, it.state))
    decreases cfg.maxTurns - s.turns
  {
    hide Iterate;
    hide Inv;
    hide Trimmable;
    TurnFits(cfg, nodeId, s, l, env(s.turns));
    IterateInv(cfg, nodeId, s, l, env(s.turns));
    var it := Iterate(cfg, nodeId, s, l, env(s.turns));
    if it.outcome.None? { LoopFits(cfg, nodeId, it.state, it.ledger, env); }
  }

  lemma ResumedFits(cfg: Config, s: State, r: Remote)
    requires Trimmable(cfg) && Short(cfg, s) && s.pending.Some?
    ensures Fitting(cfg, Resumed(cfg, s, r)) && Short(cfg, Resumed(cfg, s, r))
  {
    hide Persist;
    hide Fitting;
    hide Trimmable;
    var p := s.pending.value;
    PersistFits(cfg, Record(s, p.callIndex, Recorded(p.toolId, r.ok, r.output, if r.ok then None else r.error)).(pending := None));
  }

  /** What an attempt leaves behind is within the budget unless it is done, however often it blocked and was
      resumed. */
  lemma {:induction false} AttemptFits(cfg: Config, nodeId: string, calls: seq<Invocation>)
    requires Trimmable(cfg)
    ensures var it := Attempt(cfg, nodeId, calls);
      Short(cfg, it.state) && (it.outcome != Some(Done) ==> Fitting(cfg, it.state))
  {
    hide Loop;
    hide Resumed;
    AttemptInv(cfg, nodeId, calls);
    hide Inv;
    if calls != [] {
      var before, call := Attempt(cfg, nodeId, calls[..|calls| - 1]), calls[|calls| - 1];
      AttemptInv(cfg, nodeId, calls[..|calls| - 1]);
      AttemptFits(cfg, nodeId, calls[..|calls| - 1]);
      var s := before.state;
      if call.remote.Some? && s.pending.Some? {
        ResumedInv(cfg, s, before.ledger, call.remote.value);
        ResumedFits(cfg, s, call.remote.value);
        s := Resumed(cfg, s, call.remote.value);
      }
      hide Trimmable;
      LoopFits(cfg, nodeId, s, before.ledger, call.env);
    }
  }
}
