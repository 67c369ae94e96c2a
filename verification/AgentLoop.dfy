/** The bounded agent loop of packages/agent-runtime/src/agent-loop.ts: LLM turns, tool calls, the
    persisted history with its result index, trimming to a size budget, and blocking on a remote tool
    whose result arrives with a later invocation. */
module AgentLoop {
  import opened Common
  import Text

  /** The outcome of a tool, as both the history and the index hold it. */
  datatype Recorded = Recorded(toolId: string, ok: bool, output: string, error: Option<string>)

  datatype Entry =
    | ToolCall(callIndex: nat, toolId: string, input: string)
    | ToolResult(callIndex: nat, recorded: Recorded)

  datatype Pending = Pending(toolId: string, input: string, callIndex: nat)

  datatype State = State(turns: nat, toolCalls: nat, history: seq<Entry>, results: map<nat, Recorded>, pending: Option<Pending>)

  const INITIAL := State(0, 0, [], map[], None)

  /** `size` is the length of a state's serialisation, None where serialising throws. */
  datatype Config = Config(maxTurns: nat, maxToolCalls: nat, maxRuntimeChars: nat, allowed: set<string>,
                           persists: bool, remoteAllowed: bool, shellEnabled: bool, size: State -> Option<nat>)

  // ---------------------------------------------------------------- trimming

  const TRIM_ROUNDS := 10000

  function KeptCalls(history: seq<Entry>, pending: Option<Pending>): (keep: set<nat>)
    ensures forall c :: c in keep <==>
      (pending.Some? && pending.value.callIndex == c) || exists i :: 0 <= i < |history| && history[i].callIndex == c
  {
    if history == [] then (if pending.None? then {} else {pending.value.callIndex})
    else
      var rest := KeptCalls(history[1..], pending);
      assert history == [history[0]] + history[1..];
      {history[0].callIndex} + rest
  }

  function Prune(results: map<nat, Recorded>, keep: set<nat>): map<nat, Recorded> {
    map c | c in results && c in keep :: results[c]
  }

  /** The state without its `k` oldest history entries, its index pruned to what is left. */
  function Dropped(s: State, k: nat): State
    requires k <= |s.history|
  {
    if k == 0 then s
    else s.(history := s.history[k..], results := Prune(s.results, KeptCalls(s.history[k..], s.pending)))
  }

  predicate Fits(cfg: Config, s: State) {
    cfg.size(s).Some? && cfg.size(s).value <= cfg.maxRuntimeChars
  }

  /** Dropping entries one by one from `k` on, at most `rounds` size checks, until the state fits. */
  function TrimFrom(cfg: Config, s: State, k: nat, rounds: nat): (r: State)
    requires k <= |s.history|
    ensures r.turns == s.turns && r.toolCalls == s.toolCalls && r.pending == s.pending
    decreases rounds
  {
    var next := Dropped(s, k);
    if rounds == 0 then next
    else if cfg.size(next).None? then next.(history := [], results := map[])
    else if Fits(cfg, next) || k == |s.history| then next
    else TrimFrom(cfg, s, k + 1, rounds - 1)
  }

  function TrimState(cfg: Config, s: State): State {
    TrimFrom(cfg, s, 0, TRIM_ROUNDS)
  }

  /** Pruning again after dropping one more entry is the same as pruning once. */
  lemma PruneAgain(s: State, k: nat)
    requires k < |s.history|
    ensures Dropped(s, k + 1).results == Prune(Dropped(s, k).results, KeptCalls(s.history[k + 1..], s.pending))
  {
    hide KeptCalls;
    var all, fewer := KeptCalls(s.history[k..], s.pending), KeptCalls(s.history[k + 1..], s.pending);
    forall c | c in fewer
      ensures c in all
    {
      if !(s.pending.Some? && s.pending.value.callIndex == c) {
        var i :| 0 <= i < |s.history[k + 1..]| && s.history[k + 1..][i].callIndex == c;
        assert s.history[k..][i + 1].callIndex == c;
      }
    }
  }

  /** The loop that shifts the copied history. */
  method TrimAgentState(cfg: Config, s: State) returns (next: State, trimmed: bool)
    ensures next == TrimState(cfg, s)
    ensures !trimmed ==> next == s
  {
    hide KeptCalls;
    hide Prune;
    next, trimmed := s, false;
    ghost var k := 0;
    for i := 0 to TRIM_ROUNDS
      invariant k == i <= |s.history| && next == Dropped(s, k) && (!trimmed ==> k == 0)
      invariant TrimState(cfg, s) == TrimFrom(cfg, s, k, TRIM_ROUNDS - i)
    {
      if cfg.size(next).None? {
        next := next.(history := [], results := map[]);
        trimmed := true;
        return;
      }
      if cfg.size(next).value <= cfg.maxRuntimeChars || |next.history| == 0 {
        return;
      }
      PruneAgain(s, k);
      assert next.history[1..] == s.history[k + 1..];
      next := next.(history := next.history[1..]);
      trimmed := true;
      next := next.(results := Prune(next.results, KeptCalls(next.history, next.pending)));
      k := k + 1;
    }
  }

  /** How far trimming goes: it stops at the first state that fits, or with nothing left, or after the
      last round; or a state on the way could not be serialised and everything is dropped. */
  lemma {:induction false} TrimFromDrops(cfg: Config, s: State, k: nat, rounds: nat) returns (n: nat)
    requires k <= |s.history|
    ensures k <= n <= |s.history| && n <= k + rounds
    ensures forall j :: k <= j < n ==> cfg.size(Dropped(s, j)).Some? && !Fits(cfg, Dropped(s, j))
    ensures TrimFrom(cfg, s, k, rounds) == Dropped(s, n) ||
      (cfg.size(Dropped(s, n)).None? && TrimFrom(cfg, s, k, rounds) == Dropped(s, n).(history := [], results := map[]))
    ensures cfg.size(Dropped(s, n)).Some? ==>
      TrimFrom(cfg, s, k, rounds) == Dropped(s, n) && (Fits(cfg, Dropped(s, n)) || n == |s.history| || n == k + rounds)
    decreases rounds
  {
    hide Dropped;
    var next := Dropped(s, k);
    n := k;
    if rounds > 0 && cfg.size(next).Some? && !Fits(cfg, next) && k < |s.history| {
      n := TrimFromDrops(cfg, s, k + 1, rounds - 1);
    }
  }

  /** The state without its `n` oldest entries: of the stored results exactly those are left whose call is
      pending or still has an entry. */
  ghost predicate IsTail(s: State, n: nat, t: State) {
    && n <= |s.history| && t.history == s.history[n..]
    && t.turns == s.turns && t.toolCalls == s.toolCalls && t.pending == s.pending
    && (n == 0 ==> t.results == s.results)
    && (n > 0 ==> forall c :: c in t.results <==>
          c in s.results
          && ((s.pending.Some? && s.pending.value.callIndex == c) || exists i :: 0 <= i < |t.history| && t.history[i].callIndex == c))
    && (forall c :: c in t.results ==> c in s.results && t.results[c] == s.results[c])
  }

  lemma DroppedIsTail(s: State, n: nat)
    requires n <= |s.history|
    ensures IsTail(s, n, Dropped(s, n))
  {
    hide KeptCalls;
  }

  /** Trimming is optimal: for a serialisable history of fewer than 10,000 entries the result keeps the
      longest suffix that fits the budget, or nothing; counters and the pending call never change. */
  lemma TrimIsOptimal(cfg: Config, s: State) returns (n: nat)
    requires |s.history| < 10000
    requires forall j :: 0 <= j <= |s.history| ==> cfg.size(Dropped(s, j)).Some?
    ensures var t := TrimState(cfg, s);
      && IsTail(s, n, t)
      && (t.history == [] || (cfg.size(t).Some? && cfg.size(t).value <= cfg.maxRuntimeChars))
      && forall j :: 0 <= j < n ==> IsTail(s, j, Dropped(s, j)) && cfg.size(Dropped(s, j)).value > cfg.maxRuntimeChars
  {
    n := TrimFromDrops(cfg, s, 0, TRIM_ROUNDS);
    hide Dropped;
    hide TrimFrom;
    hide IsTail;
    DroppedIsTail(s, n);
    forall j | 0 <= j < n
      ensures IsTail(s, j, Dropped(s, j)) && cfg.size(Dropped(s, j)).value > cfg.maxRuntimeChars
    {
      DroppedIsTail(s, j);
    }
    TailIsSuffix(s, n, Dropped(s, n));
  }

  lemma TailIsSuffix(s: State, n: nat, t: State)
    requires IsTail(s, n, t)
    ensures n <= |s.history| && t.history == s.history[n..]
  {
  }

  // ---------------------------------------------------------------- the index agrees with the history

  ghost predicate IsResult(e: Entry, c: nat) {
    e.ToolResult? && e.callIndex == c
  }

  /** The keys of the index are exactly the call indexes of the result entries, with equal contents. */
  ghost predicate IndexAgrees(s: State) {
    && (forall i :: 0 <= i < |s.history| && s.history[i].ToolResult? ==>
          s.history[i].callIndex in s.results && s.results[s.history[i].callIndex] == s.history[i].recorded)
    && (forall c :: c in s.results ==> exists i :: 0 <= i < |s.history| && IsResult(s.history[i], c))
  }

  ghost predicate WellOrdered(history: seq<Entry>) {
    forall i, j :: 0 <= i < j < |history| && history[i].ToolResult? ==> history[i].callIndex != history[j].callIndex
  }

  /** Every reachable state: indexes lie within the calls made, a result is the last entry of its call,
      the pending call has no result, and the index agrees with the history. */
  ghost predicate Valid(s: State) {
    && (forall i :: 0 <= i < |s.history| ==> 1 <= s.history[i].callIndex <= s.toolCalls)
    && WellOrdered(s.history)
    && IndexAgrees(s)
    && (s.pending.Some? ==> 1 <= s.pending.value.callIndex <= s.toolCalls && s.pending.value.callIndex !in s.results)
  }

  lemma KeysInRange(s: State)
    requires Valid(s)
    ensures forall c :: c in s.results ==> 1 <= c <= s.toolCalls
  {
    forall c | c in s.results
      ensures 1 <= c <= s.toolCalls
    {
      var i :| 0 <= i < |s.history| && IsResult(s.history[i], c);
    }
  }

  /** Every stored result that is kept still has its entry: no entry of a call comes after its result, so
      if any entry of the call is left, the result is. */
  lemma DroppedIndexed(s: State, k: nat, c: nat)
    requires Valid(s) && 0 < k <= |s.history| && c in Dropped(s, k).results
    ensures exists i :: 0 <= i < |s.history[k..]| && IsResult(s.history[k..][i], c)
  {
    hide KeptCalls;
    var rest := s.history[k..];
    assert c in KeptCalls(rest, s.pending);
    var r :| 0 <= r < |s.history| && IsResult(s.history[r], c);
    var i :| 0 <= i < |rest| && rest[i].callIndex == c;
    assert rest[i] == s.history[k + i];
    assert r >= k + i;
    assert IsResult(rest[r - k], c);
  }

  lemma DroppedValid(s: State, k: nat)
    requires Valid(s) && k <= |s.history|
    ensures Valid(Dropped(s, k))
  {
    hide KeptCalls;
    hide IsResult;
    if k > 0 {
      var t := Dropped(s, k);
      forall i | 0 <= i < |t.history|
        ensures t.history[i] == s.history[k + i] && t.history[i].callIndex in KeptCalls(t.history, s.pending)
      {
      }
      forall c | c in t.results
        ensures exists i :: 0 <= i < |t.history| && IsResult(t.history[i], c)
      {
        DroppedIndexed(s, k, c);
      }
    }
  }

  lemma TrimValid(cfg: Config, s: State)
    requires Valid(s)
    ensures Valid(TrimState(cfg, s))
    ensures TrimState(cfg, s).turns == s.turns && TrimState(cfg, s).toolCalls == s.toolCalls && TrimState(cfg, s).pending == s.pending
    ensures TrimState(cfg, s).results.Keys <= s.results.Keys
  {
    hide Valid;
    var n := TrimFromDrops(cfg, s, 0, TRIM_ROUNDS);
    DroppedValid(s, n);
    EmptiedValid(Dropped(s, n));
  }

  lemma EmptiedValid(s: State)
    requires Valid(s)
    ensures Valid(s.(history := [], results := map[]))
  {
  }

  /** Recording the result of a call that has none yet. */
  function Record(s: State, c: nat, r: Recorded): State {
    s.(history := s.history + [ToolResult(c, r)], results := s.results[c := r])
  }

  lemma RecordValid(s: State, c: nat, r: Recorded)
    requires Valid(s) && 1 <= c <= s.toolCalls && c !in s.results && (s.pending.Some? ==> s.pending.value.callIndex != c)
    ensures Valid(Record(s, c, r))
  {
    var t := Record(s, c, r);
    assert IsResult(t.history[|s.history|], c);
    forall d | d in t.results
      ensures exists i :: 0 <= i < |t.history| && IsResult(t.history[i], d)
    {
      if d != c {
        var i :| 0 <= i < |s.history| && IsResult(s.history[i], d);
        assert IsResult(t.history[i], d);
      }
    }
  }

  // ---------------------------------------------------------------- one turn

  datatype ToolOutcome =
    | Unsupported
    | RemoteBlocked
    | Finished(ok: bool, output: string, error: Option<string>)

  datatype Reply =
    | LlmFailed(error: string)
    | NotAnEnvelope
    | Final(valid: bool)
    | OtherType
    | Call(toolId: string, inputIsObject: bool, input: string, tool: ToolOutcome)

  /** What the environment answers during one iteration. */
  datatype Turn = Turn(expired: bool, credits: bool, reply: Reply)

  datatype Outcome = Done | FailedWith(error: string) | BlockedOn(dispatchNodeId: string, callIndex: nat)

  /** A call that has been given an index: which answer asked for it, and how. */
  datatype Made = Made(turn: int, index: nat, toolId: string, inputIsObject: bool, input: string)

  /** The history of an attempt: the answers of the turns taken, the calls made, and those among them whose
      tool has been run, or whose remote call has been sent. */
  datatype Log = Log(answers: seq<Turn>, made: seq<Made>, ran: seq<Made>, sent: seq<Made>)

  const NO_LOG := Log([], [], [], [])

  /** What the loop has caused outside so far: LLM requests, call indexes handed out, and remote
      dispatches, by call index; and the history of it. */
  datatype Ledger = Ledger(llmRequests: nat, handedOut: seq<nat>, dispatched: seq<nat>, log: Log)

  function Answered(l: Ledger, t: Turn): Ledger {
    l.(log := l.log.(answers := l.log.answers + [t]))
  }

  /** The result of an iteration: no outcome means that the loop goes on. */
  datatype Iteration = Iteration(state: State, ledger: Ledger, outcome: Option<Outcome>)

  function DispatchNodeId(nodeId: string, callIndex: nat): string {
    nodeId + ":tool:" + Text.Decimal(callIndex)
  }

  function Persist(cfg: Config, s: State): (r: State)
    ensures r.turns == s.turns && r.toolCalls == s.toolCalls && r.pending == s.pending
  {
    if cfg.persists then TrimState(cfg, s) else s
  }

  function Fail(cfg: Config, s: State, l: Ledger, error: string): Iteration {
    Iteration(Persist(cfg, s), l, Some(FailedWith(error)))
  }

  /** An iteration that goes on has used up a turn. */
  function Iterate(cfg: Config, nodeId: string, s: State, l: Ledger, t: Turn): (it: Iteration)
    ensures it.outcome.None? ==> s.turns < cfg.maxTurns && it.state.turns == s.turns + 1
  {
    if t.expired then Fail(cfg, s, l, "LLM_TIMEOUT")
    else if s.turns >= cfg.maxTurns then Fail(cfg, s, l, "AGENT_MAX_TURNS")
    else
      var s1 := s.(turns := s.turns + 1);
      if !t.credits then Fail(cfg, s1, Answered(l, t), "CREDITS_EXHAUSTED")
      else
        var l1 := Answered(l, t).(llmRequests := l.llmRequests + 1);
        match t.reply
        case LlmFailed(error) => Fail(cfg, s1, l1, error)
        case NotAnEnvelope => Fail(cfg, s1, l1, "INVALID_AGENT_OUTPUT")
        case OtherType => Fail(cfg, s1, l1, "INVALID_AGENT_OUTPUT")
        case Final(valid) =>
          if valid then Iteration(s1, l1, Some(Done)) else Fail(cfg, s1, l1, "INVALID_AGENT_JSON_OUTPUT")
        case Call(toolId, inputIsObject, input, tool) =>
          if Text.Trim(toolId) == "" then Fail(cfg, s1, l1, "INVALID_AGENT_OUTPUT")
          else if toolId !in cfg.allowed then Fail(cfg, s1, l1, "TOOL_NOT_ALLOWED:" + toolId)
          else if !inputIsObject then Fail(cfg, s1, l1, "INVALID_TOOL_INPUT")
          else if s1.toolCalls >= cfg.maxToolCalls then Fail(cfg, s1, l1, "AGENT_MAX_TOOL_CALLS")
          else MakeCall(cfg, nodeId, s1, l1, toolId, inputIsObject, input, tool)
  }

  function Allocate(cfg: Config, s: State, toolId: string, input: string): (r: State)
    ensures r.turns == s.turns
  {
    var c := s.toolCalls + 1;
    Persist(cfg, s.(toolCalls := c, history := s.history + [ToolCall(c, toolId, input)]))
  }

  function MadeNow(s: State, l: Ledger, toolId: string, inputIsObject: bool, input: string): Made {
    Made(|l.log.answers| - 1, s.toolCalls + 1, toolId, inputIsObject, input)
  }

  function MakeCall(cfg: Config, nodeId: string, s: State, l: Ledger, toolId: string, inputIsObject: bool, input: string, tool: ToolOutcome): (it: Iteration)
    ensures it.state.turns == s.turns
  {
    var c, made := s.toolCalls + 1, MadeNow(s, l, toolId, inputIsObject, input);
    var s3 := Allocate(cfg, s, toolId, input);
    var l3 := l.(handedOut := l.handedOut + [c], log := l.log.(made := l.log.made + [made]));
    if c in s3.results then
      Iteration(s3.(history := s3.history + [ToolResult(c, s3.results[c].(toolId := toolId))]), l3, None)
    else if toolId == "shell.run" && !cfg.shellEnabled then Fail(cfg, s3, l3, "TOOL_POLICY_DENIED:shell.run")
    else if tool.Unsupported? then Fail(cfg, s3, l3, "TOOL_NOT_SUPPORTED:" + toolId)
    else
      var l4 := l3.(log := l3.log.(ran := l3.log.ran + [made]));
      match tool
      case RemoteBlocked =>
        if !cfg.remoteAllowed then Fail(cfg, s3, l4, "TEAM_REMOTE_EXEC_NOT_SUPPORTED")
        else
          var l5 := l4.(dispatched := l4.dispatched + [c], log := l4.log.(sent := l4.log.sent + [made]));
          Iteration(Persist(cfg, s3.(pending := Some(Pending(toolId, input, c)))), l5, Some(BlockedOn(DispatchNodeId(nodeId, c), c)))
      case Finished(ok, output, error) =>
        Iteration(Persist(cfg, Record(s3, c, Recorded(toolId, ok, output, if ok then None else error))), l4, None)
  }

  // ---------------------------------------------------------------- what every iteration keeps

  /** 1, 2, ..., n: call indexes are handed out once each, in order. */
  function UpTo(n: nat): seq<nat> {
    if n == 0 then [] else UpTo(n - 1) + [n]
  }

  ghost predicate Increasing(s: seq<nat>) {
    forall i, j :: 0 <= i < j < |s| ==> s[i] < s[j]
  }

  /** The bookkeeping that bounds the work: counters stay within their limits, every LLM request used up
      a turn, and dispatched calls are distinct calls handed out. */
  ghost predicate Accounted(cfg: Config, s: State, l: Ledger) {
    && l.llmRequests <= s.turns <= cfg.maxTurns
    && s.toolCalls <= cfg.maxToolCalls && l.handedOut == UpTo(s.toolCalls)
    && Increasing(l.dispatched) && forall i :: 0 <= i < |l.dispatched| ==> 1 <= l.dispatched[i] <= s.toolCalls
  }

  ghost predicate Inv(cfg: Config, s: State, l: Ledger) {
    Valid(s) && Accounted(cfg, s, l)
  }

  lemma PersistInv(cfg: Config, s: State, l: Ledger)
    requires Inv(cfg, s, l)
    ensures Inv(cfg, Persist(cfg, s), l)
    ensures Persist(cfg, s).toolCalls == s.toolCalls && Persist(cfg, s).pending == s.pending && Persist(cfg, s).turns == s.turns
    ensures Persist(cfg, s).results.Keys <= s.results.Keys
  {
    hide Valid;
    hide TrimState;
    if cfg.persists { TrimValid(cfg, s); }
  }

  /** Persisting keeps a suffix of the history. */
  lemma PersistSuffix(cfg: Config, s: State)
    ensures var h := Persist(cfg, s).history; |h| <= |s.history| && h == s.history[|s.history| - |h|..]
  {
    if cfg.persists { var n := TrimFromDrops(cfg, s, 0, TRIM_ROUNDS); }
  }

  /** A result recorded last is found under its call afterwards, unless trimming had to drop everything. */
  ghost predicate Kept(t: State, c: nat, r: Recorded) {
    t.history != [] ==> t.history[|t.history| - 1] == ToolResult(c, r) && c in t.results && t.results[c] == r
  }

  lemma RecordedIsKept(cfg: Config, s: State, c: nat, r: Recorded)
    requires Valid(s) && s.history != [] && s.history[|s.history| - 1] == ToolResult(c, r)
    ensures Kept(Persist(cfg, s), c, r)
  {
    hide TrimState;
    PersistSuffix(cfg, s);
    if cfg.persists { TrimValid(cfg, s); }
  }

  lemma CallValid(s: State, toolId: string, input: string)
    requires Valid(s)
    ensures var c := s.toolCalls + 1;
      Valid(s.(toolCalls := c, history := s.history + [ToolCall(c, toolId, input)])) && c !in s.results
  {
    var c := s.toolCalls + 1;
    var s2 := s.(toolCalls := c, history := s.history + [ToolCall(c, toolId, input)]);
    KeysInRange(s);
    forall d | d in s2.results
      ensures exists i :: 0 <= i < |s2.history| && IsResult(s2.history[i], d)
    {
      var i :| 0 <= i < |s.history| && IsResult(s.history[i], d);
      assert IsResult(s2.history[i], d);
    }
  }

  /** Handing out the next index: it is new, so the lookup of a stored result for it always misses. */
  lemma AllocateInv(cfg: Config, s: State, l: Ledger, toolId: string, input: string)
    requires Inv(cfg, s, l) && s.toolCalls < cfg.maxToolCalls
    ensures var c := s.toolCalls + 1; var t := Allocate(cfg, s, toolId, input);
      && Inv(cfg, t, l.(handedOut := l.handedOut + [c])) && t.toolCalls == c && c !in t.results
      && t.turns == s.turns && t.pending == s.pending
  {
    hide Valid;
    hide Persist;
    var c := s.toolCalls + 1;
    var s2 := s.(toolCalls := c, history := s.history + [ToolCall(c, toolId, input)]);
    CallValid(s, toolId, input);
    PersistInv(cfg, s2, l.(handedOut := l.handedOut + [c]));
  }

  lemma MakeCallInv(cfg: Config, nodeId: string, s: State, l: Ledger, toolId: string, inputIsObject: bool, input: string, tool: ToolOutcome)
    requires Inv(cfg, s, l) && s.toolCalls < cfg.maxToolCalls
    ensures var it := MakeCall(cfg, nodeId, s, l, toolId, inputIsObject, input, tool);
      && Inv(cfg, it.state, it.ledger) && it.state.turns == s.turns
      && it.ledger.llmRequests == l.llmRequests
      && (it.outcome.Some? && it.outcome.value.BlockedOn? ==>
            it.state.pending.Some? && it.state.pending.value.callIndex == it.outcome.value.callIndex
            && it.ledger.dispatched == l.dispatched + [it.outcome.value.callIndex])
      && (it.outcome.None? ==> tool.Finished?)
      && (it.outcome.None? ==>
            Kept(it.state, s.toolCalls + 1, Recorded(toolId, tool.ok, tool.output, if tool.ok then None else tool.error)))
  {
    hide Valid;
    hide Kept;
    hide Allocate;
    hide Persist;
    AllocateInv(cfg, s, l, toolId, input);
    var c := s.toolCalls + 1;
    var s3, l3 := Allocate(cfg, s, toolId, input), l.(handedOut := l.handedOut + [c]);
    PersistInv(cfg, s3, l3);
    match tool
    case Unsupported =>
    case RemoteBlocked =>
      var s4, l4 := s3.(pending := Some(Pending(toolId, input, c))), l3.(dispatched := l3.dispatched + [c]);
      PendingValid(s3, Pending(toolId, input, c));
      PersistInv(cfg, s4, l4);
    case Finished(ok, output, error) =>
      var r := Recorded(toolId, ok, output, if ok then None else error);
      PendingInRange(s, l, cfg);
      RecordValid(s3, c, r);
      PersistInv(cfg, Record(s3, c, r), l3);
      RecordedIsKept(cfg, Record(s3, c, r), c, r);
  }

  lemma PendingInRange(s: State, l: Ledger, cfg: Config)
    requires Inv(cfg, s, l)
    ensures s.pending.Some? ==> s.pending.value.callIndex <= s.toolCalls
  {
  }

  lemma PendingValid(s: State, p: Pending)
    requires Valid(s) && 1 <= p.callIndex <= s.toolCalls && p.callIndex !in s.results
    ensures Valid(s.(pending := Some(p)))
  {
  }

  lemma IterateInv(cfg: Config, nodeId: string, s: State, l: Ledger, t: Turn)
    requires Inv(cfg, s, l)
    ensures var it := Iterate(cfg, nodeId, s, l, t);
      && Inv(cfg, it.state, it.ledger)
      && (it.outcome.None? ==> it.state.turns == s.turns + 1)
      && (it.outcome.Some? && it.outcome.value.BlockedOn? ==>
            it.state.pending.Some? && it.state.pending.value.callIndex == it.outcome.value.callIndex)
  {
    hide Valid;
    hide Persist;
    hide MakeCall;
    hide Kept;
    hide Text.Trim;
    hide UpTo;
    PersistInv(cfg, s, l);
    if s.turns < cfg.maxTurns {
      var s1, l1 := s.(turns := s.turns + 1), Answered(l, t).(llmRequests := l.llmRequests + 1);
      TurnValid(s);
      PersistInv(cfg, s1, l);
      PersistInv(cfg, s1, Answered(l, t));
      PersistInv(cfg, s1, l1);
      if t.reply.Call? && s1.toolCalls < cfg.maxToolCalls {
        MakeCallInv(cfg, nodeId, s1, l1, t.reply.toolId, t.reply.inputIsObject, t.reply.input, t.reply.tool);
      }
    }
  }

  lemma TurnValid(s: State)
    requires Valid(s)
    ensures Valid(s.(turns := s.turns + 1))
  {
  }

  // ---------------------------------------------------------------- one invocation

  datatype Remote = Remote(ok: bool, output: string, error: Option<string>)

  /** What one invocation of the loop is given: the result of the pending remote call, if it resumes one,
      whether credentials resolve, and the answers of the environment turn by turn. */
  datatype Invocation = Invocation(remote: Option<Remote>, authorised: bool, env: nat -> Turn)

  function Resumed(cfg: Config, s: State, r: Remote): State
    requires s.pending.Some?
  {
    var p := s.pending.value;
    Persist(cfg, Record(s, p.callIndex, Recorded(p.toolId, r.ok, r.output, if r.ok then None else r.error)).(pending := None))
  }

  /** The loop proper: at most `maxTurns` iterations. */
  function Loop(cfg: Config, nodeId: string, s: State, l: Ledger, env: nat -> Turn): (it: Iteration)
    ensures it.outcome.Some?
    decreases cfg.maxTurns - s.turns
  {
    var it := Iterate(cfg, nodeId, s, l, env(s.turns));
    if it.outcome.Some? then it else Loop(cfg, nodeId, it.state, it.ledger, env)
  }

  lemma {:induction false} LoopInv(cfg: Config, nodeId: string, s: State, l: Ledger, env: nat -> Turn)
    requires Inv(cfg, s, l)
    ensures var it := Loop(cfg, nodeId, s, l, env); Inv(cfg, it.state, it.ledger)
    decreases cfg.maxTurns - s.turns
  {
    hide Inv;
    hide Iterate;
    IterateInv(cfg, nodeId, s, l, env(s.turns));
    var it := Iterate(cfg, nodeId, s, l, env(s.turns));
    if it.outcome.None? {
      LoopInv(cfg, nodeId, it.state, it.ledger, env);
    }
  }

  /** The remote result goes under exactly the call that was pending, which had none, and no call is
      pending afterwards. */
  lemma ResumedInv(cfg: Config, s: State, l: Ledger, r: Remote)
    requires Inv(cfg, s, l) && s.pending.Some?
    ensures Inv(cfg, Resumed(cfg, s, r), l) && Resumed(cfg, s, r).pending.None?
    ensures var p := s.pending.value;
      p.callIndex !in s.results
      && Kept(Resumed(cfg, s, r), p.callIndex, Recorded(p.toolId, r.ok, r.output, if r.ok then None else r.error))
  {
    hide Persist;
    hide Kept;
    var p := s.pending.value;
    var recorded := Recorded(p.toolId, r.ok, r.output, if r.ok then None else r.error);
    NotPendingValid(s);
    RecordValid(s.(pending := None), p.callIndex, recorded);
    var t := Record(s, p.callIndex, recorded).(pending := None);
    PersistInv(cfg, t, l);
    RecordedIsKept(cfg, t, p.callIndex, recorded);
  }

  lemma NotPendingValid(s: State)
    requires Valid(s)
    ensures Valid(s.(pending := None))
  {
  }

  /** One invocation: resume, if a remote result came in, then loop. */
  function Invoke(cfg: Config, nodeId: string, s: State, l: Ledger, call: Invocation): (it: Iteration)
    ensures it.outcome.Some?
  {
    if call.remote.Some? && s.pending.None? then Iteration(s, l, Some(FailedWith("REMOTE_RESULT_UNEXPECTED")))
    else
      var s1 := if call.remote.Some? then Resumed(cfg, s, call.remote.value) else s;
      if !call.authorised then Iteration(s1, l, Some(FailedWith("LLM_AUTH_NOT_CONFIGURED")))
      else Loop(cfg, nodeId, s1, l, call.env)
  }

  lemma InvokeInv(cfg: Config, nodeId: string, s: State, l: Ledger, call: Invocation)
    requires Inv(cfg, s, l)
    ensures var it := Invoke(cfg, nodeId, s, l, call); Inv(cfg, it.state, it.ledger)
  {
    hide Inv;
    hide Resumed;
    hide Loop;
    var s1 := s;
    if call.remote.Some? && s.pending.Some? {
      ResumedInv(cfg, s, l, call.remote.value);
      s1 := Resumed(cfg, s, call.remote.value);
    }
    LoopInv(cfg, nodeId, s1, l, call.env);
  }

  // ---------------------------------------------------------------- a whole run attempt

  /** A loop that may block keeps its state; teammates, whose state is not kept, may not block. */
  predicate Resumable(cfg: Config) {
    cfg.persists || !cfg.remoteAllowed
  }

  /** Invocation after invocation of one node in one attempt, each resuming the persisted state, until
      one does not block. */
  function Attempt(cfg: Config, nodeId: string, calls: seq<Invocation>): Iteration
    requires Resumable(cfg)
  {
    if calls == [] then Iteration(INITIAL, Ledger(0, [], [], NO_LOG), None)
    else
      var before := Attempt(cfg, nodeId, calls[..|calls| - 1]);
      if before.outcome.Some? && !before.outcome.value.BlockedOn? then before
      else Invoke(cfg, nodeId, before.state, before.ledger, calls[|calls| - 1])
  }

  lemma {:induction false} AttemptInv(cfg: Config, nodeId: string, calls: seq<Invocation>)
    requires Resumable(cfg)
    ensures var it := Attempt(cfg, nodeId, calls); Inv(cfg, it.state, it.ledger)
  {
    hide Invoke;
    if calls != [] {
      var before := Attempt(cfg, nodeId, calls[..|calls| - 1]);
      AttemptInv(cfg, nodeId, calls[..|calls| - 1]);
      InvokeInv(cfg, nodeId, before.state, before.ledger, calls[|calls| - 1]);
    } else {
      assert UpTo(0) == [];
    }
  }

  /** However often the node blocks, resumes and is trimmed: at most `maxTurns` LLM requests, at most
      `maxToolCalls` calls, numbered 1, 2, ... without repetition, no two dispatches with the same id,
      and an index that agrees with the history. */
  lemma {:induction false} BoundedWork(cfg: Config, nodeId: string, calls: seq<Invocation>)
    requires Resumable(cfg)
    ensures var it := Attempt(cfg, nodeId, calls);
      && it.ledger.llmRequests <= cfg.maxTurns
      && |it.ledger.handedOut| <= cfg.maxToolCalls
      && (forall i :: 0 <= i < |it.ledger.handedOut| ==> it.ledger.handedOut[i] == i + 1)
      && (forall i, j :: 0 <= i < j < |it.ledger.dispatched| ==>
            DispatchNodeId(nodeId, it.ledger.dispatched[i]) != DispatchNodeId(nodeId, it.ledger.dispatched[j]))
      && IndexAgrees(it.state)
  {
    hide Attempt;
    AttemptInv(cfg, nodeId, calls);
    var l := Attempt(cfg, nodeId, calls).ledger;
    UpToIs(Attempt(cfg, nodeId, calls).state.toolCalls);
    forall i, j | 0 <= i < j < |l.dispatched|
      ensures DispatchNodeId(nodeId, l.dispatched[i]) != DispatchNodeId(nodeId, l.dispatched[j])
    {
      DispatchDistinct(nodeId, l.dispatched[i], l.dispatched[j]);
    }
  }

  lemma {:induction false} UpToIs(n: nat)
    ensures |UpTo(n)| == n && forall i :: 0 <= i < n ==> UpTo(n)[i] == i + 1
  {
    if n > 0 { UpToIs(n - 1); }
  }

  lemma DispatchDistinct(nodeId: string, a: nat, b: nat)
    requires a != b
    ensures DispatchNodeId(nodeId, a) != DispatchNodeId(nodeId, b)
  {
    var x, y, prefix := DispatchNodeId(nodeId, a), DispatchNodeId(nodeId, b), nodeId + ":tool:";
    assert x[|prefix|..] == Text.Decimal(a) && y[|prefix|..] == Text.Decimal(b);
    if x == y { Text.DecimalInjective(a, b); }
  }

  // ---------------------------------------------------------------- crashes

  /** How far an iteration gets before the process dies: nothing has left it yet; the LLM has been asked; a
      call index has been handed out, and its tool perhaps run; or the iteration has been checkpointed. */
  datatype Cut = BeforeRequest | AfterRequest | AfterCall | AfterCheckpoint

  /** What a crash leaves: the state of the last checkpoint, and what has been caused outside. Only an
      iteration that goes on or blocks is checkpointed. */
  function CutTurn(cfg: Config, nodeId: string, s: State, l: Ledger, t: Turn, cut: Cut): (State, Ledger) {
    var it := Iterate(cfg, nodeId, s, l, t);
    var goesOn := it.outcome.None? || it.outcome.value.BlockedOn?;
    if cut.BeforeRequest? then (s, l)
    else if cut.AfterRequest? then (s, l.(llmRequests := it.ledger.llmRequests, log := l.log.(answers := it.ledger.log.answers)))
    else if cut.AfterCall? || !goesOn then (s, it.ledger.(dispatched := l.dispatched, log := it.ledger.log.(sent := l.log.sent)))
    else (it.state, it.ledger)
  }

  /** The loop dies in the iteration after the next `n`, or in the one that would have ended it. */
  function CutLoop(cfg: Config, nodeId: string, s: State, l: Ledger, env: nat -> Turn, n: nat, cut: Cut): (State, Ledger)
    decreases n
  {
    var it := Iterate(cfg, nodeId, s, l, env(s.turns));
    if n == 0 then CutTurn(cfg, nodeId, s, l, env(s.turns), cut)
    else if it.outcome.Some? then CutTurn(cfg, nodeId, s, l, env(s.turns), AfterCheckpoint)
    else CutLoop(cfg, nodeId, it.state, it.ledger, env, n - 1, cut)
  }

  /** Where an invocation dies: before its remote result has been checkpointed, or in the loop. */
  datatype Crash = InResume | InLoop(turns: nat, cut: Cut)

  function CutInvoke(cfg: Config, nodeId: string, s: State, l: Ledger, call: Invocation, crash: Crash): (State, Ledger) {
    if call.remote.Some? && (s.pending.None? || crash.InResume?) then (s, l)
    else
      var s1 := if call.remote.Some? then Resumed(cfg, s, call.remote.value) else s;
      if crash.InResume? || !call.authorised then (s1, l)
      else CutLoop(cfg, nodeId, s1, l, call.env, crash.turns, crash.cut)
  }

  datatype Event = Returns(call: Invocation) | Dies(call: Invocation, crash: Crash)

  /** A run attempt in which invocations also die; `crashes` counts them. */
  datatype Progress = Progress(state: State, ledger: Ledger, outcome: Option<Outcome>, crashes: nat)

  function AttemptWithCrashes(cfg: Config, nodeId: string, events: seq<Event>): Progress {
    if events == [] then Progress(INITIAL, Ledger(0, [], [], NO_LOG), None, 0)
    else
      var p := AttemptWithCrashes(cfg, nodeId, events[..|events| - 1]);
      if p.outcome.Some? && !p.outcome.value.BlockedOn? then p
      else
        match events[|events| - 1]
        case Returns(call) =>
          var it := Invoke(cfg, nodeId, p.state, p.ledger, call);
          Progress(it.state, it.ledger, it.outcome, p.crashes)
        case Dies(call, crash) =>
          var (s, l) := CutInvoke(cfg, nodeId, p.state, p.ledger, call, crash);
          Progress(s, l, None, p.crashes + 1)
  }

  /** The bookkeeping when `k` iterations have been lost and taken again. */
  ghost predicate Within(cfg: Config, s: State, l: Ledger, k: nat) {
    && Valid(s) && s.turns <= cfg.maxTurns && s.toolCalls <= cfg.maxToolCalls
    && l.llmRequests <= s.turns + k && |l.handedOut| <= s.toolCalls + k
    && (forall i :: 0 <= i < |l.handedOut| ==> 1 <= l.handedOut[i] <= cfg.maxToolCalls)
    && Increasing(l.dispatched) && forall i :: 0 <= i < |l.dispatched| ==> 1 <= l.dispatched[i] <= s.toolCalls
  }

  /** What an iteration causes does not depend on what has been caused before. */
  lemma SameEffect(cfg: Config, nodeId: string, s: State, l: Ledger, m: Ledger, t: Turn)
    ensures var a, b := Iterate(cfg, nodeId, s, l, t), Iterate(cfg, nodeId, s, m, t);
      && a.state == b.state && a.outcome == b.outcome
      && l.llmRequests <= a.ledger.llmRequests <= l.llmRequests + 1
      && a.ledger.llmRequests - l.llmRequests == b.ledger.llmRequests - m.llmRequests
      && (exists more: seq<nat> :: (more == [] || more == [s.toolCalls + 1])
            && a.ledger.handedOut == l.handedOut + more && b.ledger.handedOut == m.handedOut + more)
      && (l.dispatched == m.dispatched ==> a.ledger.dispatched == b.ledger.dispatched)
  {
    hide Persist;
    hide Text.Trim;
    hide MakeCall;
    if t.reply.Call? {
      SameCall(cfg, nodeId, s.(turns := s.turns + 1), Answered(l, t).(llmRequests := l.llmRequests + 1),
               Answered(m, t).(llmRequests := m.llmRequests + 1), t.reply.toolId, t.reply.inputIsObject, t.reply.input, t.reply.tool);
    }
    var a, b := Iterate(cfg, nodeId, s, l, t), Iterate(cfg, nodeId, s, m, t);
    var more: seq<nat> := if a.ledger.handedOut == l.handedOut then [] else [s.toolCalls + 1];
    assert a.ledger.handedOut == l.handedOut + more && b.ledger.handedOut == m.handedOut + more;
  }

  lemma SameCall(cfg: Config, nodeId: string, s: State, l: Ledger, m: Ledger, toolId: string, inputIsObject: bool, input: string, tool: ToolOutcome)
    ensures var a, b, c := MakeCall(cfg, nodeId, s, l, toolId, inputIsObject, input, tool), MakeCall(cfg, nodeId, s, m, toolId, inputIsObject, input, tool), s.toolCalls + 1;
      && a.state == b.state && a.outcome == b.outcome
      && a.ledger.llmRequests == l.llmRequests && b.ledger.llmRequests == m.llmRequests
      && a.ledger.handedOut == l.handedOut + [c] && b.ledger.handedOut == m.handedOut + [c]
      && (l.dispatched == m.dispatched ==> a.ledger.dispatched == b.ledger.dispatched)
  {
    hide Persist;
    hide Allocate;
  }

  /** The ledger of an attempt without crashes that is in the same state. */
  function Straight(s: State, l: Ledger): Ledger {
    Ledger(s.turns, UpTo(s.toolCalls), l.dispatched, l.log)
  }

  lemma IterateWithin(cfg: Config, nodeId: string, s: State, l: Ledger, t: Turn, k: nat)
    requires Within(cfg, s, l, k)
    ensures var it := Iterate(cfg, nodeId, s, l, t);
      && Within(cfg, it.state, it.ledger, k)
      && Within(cfg, s, it.ledger.(dispatched := l.dispatched), k + 1)
      && Within(cfg, s, l.(llmRequests := it.ledger.llmRequests), k + 1)
  {
    hide Valid;
    hide Iterate;
    hide UpTo;
    SameEffect(cfg, nodeId, s, l, Straight(s, l), t);
    IterateInv(cfg, nodeId, s, Straight(s, l), t);
    UpToIs(s.toolCalls);
    UpToIs(Iterate(cfg, nodeId, s, l, t).state.toolCalls);
  }

  lemma CutTurnWithin(cfg: Config, nodeId: string, s: State, l: Ledger, t: Turn, cut: Cut, k: nat)
    requires Within(cfg, s, l, k)
    ensures var (s', l') := CutTurn(cfg, nodeId, s, l, t, cut); Within(cfg, s', l', k + 1)
  {
    hide Valid;
    hide Iterate;
    IterateWithin(cfg, nodeId, s, l, t, k);
  }

  lemma {:induction false} CutLoopWithin(cfg: Config, nodeId: string, s: State, l: Ledger, env: nat -> Turn, n: nat, cut: Cut, k: nat)
    requires Within(cfg, s, l, k)
    ensures var (s', l') := CutLoop(cfg, nodeId, s, l, env, n, cut); Within(cfg, s', l', k + 1)
    decreases n
  {
    hide Within;
    hide Iterate;
    hide CutTurn;
    CutTurnWithin(cfg, nodeId, s, l, env(s.turns), cut, k);
    CutTurnWithin(cfg, nodeId, s, l, env(s.turns), AfterCheckpoint, k);
    var it := Iterate(cfg, nodeId, s, l, env(s.turns));
    IterateWithin(cfg, nodeId, s, l, env(s.turns), k);
    if n > 0 && it.outcome.None? { CutLoopWithin(cfg, nodeId, it.state, it.ledger, env, n - 1, cut, k); }
  }

  lemma {:induction false} LoopWithin(cfg: Config, nodeId: string, s: State, l: Ledger, env: nat -> Turn, k: nat)
    requires Within(cfg, s, l, k)
    ensures var it := Loop(cfg, nodeId, s, l, env); Within(cfg, it.state, it.ledger, k)
    decreases cfg.maxTurns - s.turns
  {
    hide Within;
    hide Iterate;
    IterateWithin(cfg, nodeId, s, l, env(s.turns), k);
    var it := Iterate(cfg, nodeId, s, l, env(s.turns));
    if it.outcome.None? { LoopWithin(cfg, nodeId, it.state, it.ledger, env, k); }
  }

  lemma ResumedWithin(cfg: Config, s: State, l: Ledger, r: Remote, k: nat)
    requires Within(cfg, s, l, k) && s.pending.Some?
    ensures Within(cfg, Resumed(cfg, s, r), l, k)
  {
    hide Valid;
    hide Resumed;
    hide UpTo;
    ResumedInv(cfg, s, Straight(s, l), r);
    ResumedCounters(cfg, s, r);
  }

  lemma ResumedCounters(cfg: Config, s: State, r: Remote)
    requires s.pending.Some?
    ensures Resumed(cfg, s, r).turns == s.turns && Resumed(cfg, s, r).toolCalls == s.toolCalls
  {
    hide TrimState;
    if cfg.persists {
      var p := s.pending.value;
      var t := Record(s, p.callIndex, Recorded(p.toolId, r.ok, r.output, if r.ok then None else r.error)).(pending := None);
      var n := TrimFromDrops(cfg, t, 0, TRIM_ROUNDS);
    }
  }

  lemma EventWithin(cfg: Config, nodeId: string, p: Progress, call: Invocation, crash: Crash)
    requires Within(cfg, p.state, p.ledger, p.crashes)
    ensures var it := Invoke(cfg, nodeId, p.state, p.ledger, call); Within(cfg, it.state, it.ledger, p.crashes)
    ensures var (s, l) := CutInvoke(cfg, nodeId, p.state, p.ledger, call, crash); Within(cfg, s, l, p.crashes + 1)
  {
    hide Within;
    hide Resumed;
    hide Loop;
    hide CutLoop;
    var s1 := p.state;
    if call.remote.Some? && p.state.pending.Some? {
      ResumedWithin(cfg, p.state, p.ledger, call.remote.value, p.crashes);
      s1 := Resumed(cfg, p.state, call.remote.value);
    }
    LoopWithin(cfg, nodeId, s1, p.ledger, call.env, p.crashes);
    OneMore(cfg, p.state, p.ledger, p.crashes);
    OneMore(cfg, s1, p.ledger, p.crashes);
    if crash.InLoop? { CutLoopWithin(cfg, nodeId, s1, p.ledger, call.env, crash.turns, crash.cut, p.crashes); }
  }

  lemma OneMore(cfg: Config, s: State, l: Ledger, k: nat)
    requires Within(cfg, s, l, k)
    ensures Within(cfg, s, l, k + 1)
  {
    hide Valid;
  }

  lemma {:induction false} CrashesWithin(cfg: Config, nodeId: string, events: seq<Event>)
    ensures var p := AttemptWithCrashes(cfg, nodeId, events); Within(cfg, p.state, p.ledger, p.crashes)
  {
    hide Invoke;
    hide CutInvoke;
    if events != [] {
      var p := AttemptWithCrashes(cfg, nodeId, events[..|events| - 1]);
      CrashesWithin(cfg, nodeId, events[..|events| - 1]);
      hide Within;
      match events[|events| - 1]
      case Returns(call) => EventWithin(cfg, nodeId, p, call, InResume);
      case Dies(call, crash) => EventWithin(cfg, nodeId, p, call, crash);
    }
  }

  /** However often an invocation dies, and at whatever point: each crash costs at most one more LLM request
      and one more tool call, no two dispatches have the same id, and the persisted index still agrees with
      the persisted history. */
  lemma {:induction false} BoundedDespiteCrashes(cfg: Config, nodeId: string, events: seq<Event>)
    requires cfg.persists
    ensures var p := AttemptWithCrashes(cfg, nodeId, events);
      && p.ledger.llmRequests <= cfg.maxTurns + p.crashes
      && |p.ledger.handedOut| <= cfg.maxToolCalls + p.crashes
      && (forall i, j :: 0 <= i < j < |p.ledger.dispatched| ==>
            DispatchNodeId(nodeId, p.ledger.dispatched[i]) != DispatchNodeId(nodeId, p.ledger.dispatched[j]))
      && IndexAgrees(p.state)
  {
    hide AttemptWithCrashes;
    CrashesWithin(cfg, nodeId, events);
    var l := AttemptWithCrashes(cfg, nodeId, events).ledger;
    forall i, j | 0 <= i < j < |l.dispatched|
      ensures DispatchNodeId(nodeId, l.dispatched[i]) != DispatchNodeId(nodeId, l.dispatched[j])
    {
      DispatchDistinct(nodeId, l.dispatched[i], l.dispatched[j]);
    }
  }

  /** Without crashes it is the attempt as before. */
  lemma {:induction false} NoCrashes(cfg: Config, nodeId: string, calls: seq<Invocation>, events: seq<Event>)
    requires Resumable(cfg) && |events| == |calls| && forall i :: 0 <= i < |calls| ==> events[i] == Returns(calls[i])
    ensures var it, p := Attempt(cfg, nodeId, calls), AttemptWithCrashes(cfg, nodeId, events);
      p == Progress(it.state, it.ledger, it.outcome, 0)
  {
    hide Invoke;
    if calls != [] {
      var n := |calls| - 1;
      NoCrashes(cfg, nodeId, calls[..n], events[..n]);
    }
  }

  // ---------------------------------------------------------------- the loop as the source runs it

  class AgentRun {
    const cfg: Config
    const nodeId: string
    var turns: nat
    var toolCalls: nat
    var history: seq<Entry>
    var results: map<nat, Recorded>
    var pending: Option<Pending>
    ghost var ledger: Ledger

    /** Starts from the persisted state of the node, or from the initial one. */
    constructor (cfg: Config, nodeId: string, prior: Option<State>, ghost ledger: Ledger)
      ensures this.cfg == cfg && this.nodeId == nodeId && this.ledger == ledger
      ensures Current() == if prior.Some? then prior.value else INITIAL
    {
      this.cfg := cfg;
      this.nodeId := nodeId;
      this.ledger := ledger;
      var s := if prior.Some? then prior.value else INITIAL;
      turns, toolCalls, history, results, pending := s.turns, s.toolCalls, s.history, s.results, s.pending;
    }

    function Current(): State
      reads this
    {
      State(turns, toolCalls, history, results, pending)
    }

    method PersistState()
      modifies this`history, this`results
      ensures Current() == Persist(cfg, old(Current()))
    {
      if cfg.persists {
        var next, trimmed := TrimAgentState(cfg, Current());
        if trimmed {
          history, results := next.history, next.results;
        }
      }
    }

    /** Records the remote result under the pending call. */
    method Resume(r: Remote) returns (error: Option<string>)
      modifies this
      ensures ledger == old(ledger)
      ensures old(pending).None? ==> error == Some("REMOTE_RESULT_UNEXPECTED") && Current() == old(Current())
      ensures old(pending).Some? ==> error == None && Current() == Resumed(cfg, old(Current()), r)
    {
      if pending.None? {
        return Some("REMOTE_RESULT_UNEXPECTED");
      }
      var p := pending.value;
      var recorded := Recorded(p.toolId, r.ok, r.output, if r.ok then None else r.error);
      history := history + [ToolResult(p.callIndex, recorded)];
      results := results[p.callIndex := recorded];
      pending := None;
      PersistState();
      return None;
    }

    /** A tool call that passed the checks. */
    method CallTool(toolId: string, inputIsObject: bool, input: string, tool: ToolOutcome) returns (outcome: Option<Outcome>)
      modifies this
      ensures Iteration(Current(), ledger, outcome) == MakeCall(cfg, nodeId, old(Current()), old(ledger), toolId, inputIsObject, input, tool)
    {
      hide Persist;
      var c := toolCalls + 1;
      ghost var made := MadeNow(Current(), ledger, toolId, inputIsObject, input);
      toolCalls := c;
      ledger := ledger.(handedOut := ledger.handedOut + [c], log := ledger.log.(made := ledger.log.made + [made]));
      history := history + [ToolCall(c, toolId, input)];
      PersistState();
      if c in results {
        history := history + [ToolResult(c, results[c].(toolId := toolId))];
        return None;
      }
      if toolId == "shell.run" && !cfg.shellEnabled {
        PersistState();
        return Some(FailedWith("TOOL_POLICY_DENIED:shell.run"));
      }
      if tool.Unsupported? {
        PersistState();
        return Some(FailedWith("TOOL_NOT_SUPPORTED:" + toolId));
      }
      ledger := ledger.(log := ledger.log.(ran := ledger.log.ran + [made]));
      match tool
      case RemoteBlocked =>
        if !cfg.remoteAllowed {
          PersistState();
          return Some(FailedWith("TEAM_REMOTE_EXEC_NOT_SUPPORTED"));
        }
        pending := Some(Pending(toolId, input, c));
        ledger := ledger.(dispatched := ledger.dispatched + [c], log := ledger.log.(sent := ledger.log.sent + [made]));
        PersistState();
        return Some(BlockedOn(DispatchNodeId(nodeId, c), c));
      case Finished(ok, output, error) =>
        var recorded := Recorded(toolId, ok, output, if ok then None else error);
        results := results[c := recorded];
        history := history + [ToolResult(c, recorded)];
        PersistState();
        return None;
    }

    /** One iteration of the `for (;;)`. */
    method TakeTurn(t: Turn) returns (outcome: Option<Outcome>)
      modifies this
      ensures Iteration(Current(), ledger, outcome) == Iterate(cfg, nodeId, old(Current()), old(ledger), t)
    {
      hide Persist;
      hide MakeCall;
      if t.expired {
        PersistState();
        return Some(FailedWith("LLM_TIMEOUT"));
      }
      if turns >= cfg.maxTurns {
        PersistState();
        return Some(FailedWith("AGENT_MAX_TURNS"));
      }
      turns := turns + 1;
      ledger := Answered(ledger, t);
      if !t.credits {
        PersistState();
        return Some(FailedWith("CREDITS_EXHAUSTED"));
      }
      ledger := ledger.(llmRequests := ledger.llmRequests + 1);
      var failure: string;
      match t.reply {
        case LlmFailed(error) => failure := error;
        case NotAnEnvelope => failure := "INVALID_AGENT_OUTPUT";
        case OtherType => failure := "INVALID_AGENT_OUTPUT";
        case Final(valid) =>
          if valid {
            return Some(Done);
          }
          failure := "INVALID_AGENT_JSON_OUTPUT";
        case Call(toolId, inputIsObject, input, tool) =>
          if Text.Trim(toolId) == "" {
            failure := "INVALID_AGENT_OUTPUT";
          } else if toolId !in cfg.allowed {
            failure := "TOOL_NOT_ALLOWED:" + toolId;
          } else if !inputIsObject {
            failure := "INVALID_TOOL_INPUT";
          } else if toolCalls >= cfg.maxToolCalls {
            failure := "AGENT_MAX_TOOL_CALLS";
          } else {
            outcome := CallTool(toolId, inputIsObject, input, tool);
            return;
          }
      }
      PersistState();
      return Some(FailedWith(failure));
    }

    method RunAgentLoop(call: Invocation) returns (outcome: Outcome)
      modifies this
      ensures Iteration(Current(), ledger, Some(outcome)) == Invoke(cfg, nodeId, old(Current()), old(ledger), call)
    {
      hide Iterate;
      hide Resumed;
      if call.remote.Some? {
        var error := Resume(call.remote.value);
        if error.Some? {
          return FailedWith(error.value);
        }
      }
      if !call.authorised {
        return FailedWith("LLM_AUTH_NOT_CONFIGURED");
      }
      ghost var start := Loop(cfg, nodeId, Current(), ledger, call.env);
      while true
        invariant start == Loop(cfg, nodeId, Current(), ledger, call.env)
        decreases cfg.maxTurns - turns
      {
        var out := TakeTurn(call.env(turns));
        if out.Some? {
          return out.value;
        }
      }
    }
  }
}
