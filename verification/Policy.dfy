/** The organisation policy of apps/worker/src/main.ts: the first matching rule decides, and a default
    decides where no rule matches. */
module Policy {
  import opened Common

  datatype Effect = Allow | Deny | RequireApproval

  datatype Context = Context(nodeType: string, taskType: Option<string>, networkMode: Option<string>, actionId: Option<string>)

  /** A rule's scope; an absent or empty part does not restrict. A rule whose scope is not an object has
      `NoScope` and applies to every node. */
  datatype Scope =
    | NoScope
    | Scope(nodeType: string, nodeTypes: seq<string>, taskType: string, networkMode: string, actionIdPrefixes: seq<string>)

  datatype Rule = Rule(id: string, name: string, enabled: bool, effect: Effect, scope: Scope)

  datatype Decision = Decision(effect: Effect, reason: string, ruleId: Option<string>)

  /** What the policy sees of a node: its type, and for two of the types a part of its configuration. */
  datatype Settings = Settings(taskType: Option<string>, networkEnabled: bool, actionId: Option<string>)

  function BuildContext(nodeType: string, settings: Settings): Context {
    if nodeType == "agent.execute" then
      Context(nodeType, settings.taskType, Some(if settings.networkEnabled then "enabled" else "none"), None)
    else if nodeType == "connector.action" then Context(nodeType, None, None, settings.actionId)
    else Context(nodeType, None, None, None)
  }

  predicate RuleMatches(rule: Rule, ctx: Context) {
    && rule.enabled
    && match rule.scope
       case NoScope => true
       case Scope(nodeType, nodeTypes, taskType, networkMode, prefixes) =>
         && (nodeType == "" || nodeType == ctx.nodeType)
         && (nodeTypes == [] || ctx.nodeType in nodeTypes)
         && (taskType == "" || ctx.taskType == Some(taskType))
         && (networkMode == "" || ctx.networkMode == Some(networkMode))
         && (prefixes == [] || (ctx.actionId.Some? && ctx.actionId.value != "" && exists p :: p in prefixes && p <= ctx.actionId.value))
  }

  function Lower(c: char): char {
    if 'A' <= c <= 'Z' then (c as int + 32) as char else c
  }

  function LowerAll(s: string): (r: string)
    ensures |r| == |s| && forall i :: 0 <= i < |s| ==> r[i] == Lower(s[i])
  {
    if s == [] then [] else [Lower(s[0])] + LowerAll(s[1..])
  }

  predicate IsSeparator(c: char) {
    c == '.' || c == '_' || c == '-'
  }

  const WRITE_VERBS := {"create", "update", "delete", "remove", "write", "send", "post", "put", "patch", "sync",
                        "upsert", "publish", "invite", "grant", "revoke"}

  /** The regular expression: a write verb between separators or the ends of the action id. */
  predicate LikelyWrite(actionId: string) {
    exists i, j :: 0 <= i <= j <= |actionId| && WriteAt(actionId, i, j)
  }

  predicate WriteAt(actionId: string, i: nat, j: nat)
    requires i <= j <= |actionId|
  {
    && LowerAll(actionId[i..j]) in WRITE_VERBS
    && (i == 0 || IsSeparator(actionId[i - 1]))
    && (j == |actionId| || IsSeparator(actionId[j]))
  }

  function Default(ctx: Context): Decision {
    if ctx.nodeType == "agent.execute" && ctx.networkMode == Some("enabled") then
      Decision(Deny, "network_enabled_execute_denied_by_default", None)
    else if ctx.nodeType == "agent.execute" && ctx.taskType == Some("shell") then
      Decision(RequireApproval, "shell_run_requires_approval", None)
    else if ctx.nodeType == "connector.action" && ctx.actionId.Some? && LikelyWrite(ctx.actionId.value) then
      Decision(RequireApproval, "connector_write_action_requires_approval", None)
    else Decision(Allow, "default_allow", None)
  }

  function Evaluate(rules: seq<Rule>, ctx: Context): Decision {
    if rules == [] then Default(ctx)
    else if RuleMatches(rules[0], ctx) then
      Decision(rules[0].effect, "organization_policy_rule:" + rules[0].name, Some(rules[0].id))
    else Evaluate(rules[1..], ctx)
  }

  /** `i` is the first rule that matches. */
  ghost predicate FirstMatch(rules: seq<Rule>, ctx: Context, i: nat) {
    i < |rules| && RuleMatches(rules[i], ctx) && forall j :: 0 <= j < i ==> !RuleMatches(rules[j], ctx)
  }

  /** The first matching rule decides whatever the others say; the default decides only if none matches. */
  lemma {:induction false} FirstMatchDecides(rules: seq<Rule>, ctx: Context)
    ensures forall i: nat :: FirstMatch(rules, ctx, i) ==>
      Evaluate(rules, ctx).effect == rules[i].effect && Evaluate(rules, ctx).ruleId == Some(rules[i].id)
    ensures (forall i :: 0 <= i < |rules| ==> !RuleMatches(rules[i], ctx)) ==> Evaluate(rules, ctx) == Default(ctx)
    ensures Evaluate(rules, ctx).ruleId.None? <==> forall i :: 0 <= i < |rules| ==> !RuleMatches(rules[i], ctx)
  {
    hide RuleMatches;
    hide Default;
    DefaultHasNoRule(ctx);
    if rules != [] {
      FirstMatchDecides(rules[1..], ctx);
      forall i: nat | FirstMatch(rules, ctx, i)
        ensures Evaluate(rules, ctx).effect == rules[i].effect && Evaluate(rules, ctx).ruleId == Some(rules[i].id)
      {
        if i > 0 { assert FirstMatch(rules[1..], ctx, i - 1); }
      }
      assert rules == [rules[0]] + rules[1..];
    }
  }

  lemma DefaultHasNoRule(ctx: Context)
    ensures Default(ctx).ruleId.None?
  {
  }

  /** Without a matching rule nothing with network access is executed, and nothing that runs a shell or
      looks like a write goes without approval. */
  lemma {:induction false} SafeByDefault(rules: seq<Rule>, ctx: Context)
    requires forall i :: 0 <= i < |rules| ==> !RuleMatches(rules[i], ctx)
    ensures Evaluate(rules, ctx).effect == Deny <==> ctx.nodeType == "agent.execute" && ctx.networkMode == Some("enabled")
    ensures Evaluate(rules, ctx).effect == Allow ==>
      (ctx.nodeType == "agent.execute" ==> ctx.taskType != Some("shell")) &&
      (ctx.nodeType == "connector.action" && ctx.actionId.Some? ==> !LikelyWrite(ctx.actionId.value))
  {
    hide LikelyWrite;
    FirstMatchDecides(rules, ctx);
  }

  // ---------------------------------------------------------------- which rules may decide, from the node itself

  /** The rule says nothing about the node: it is disabled, or it names another node type, task type or network
      mode, or only other actions. Task types and network modes are those of `agent.execute` nodes, actions
      those of `connector.action` nodes. */
  ghost predicate Excluded(rule: Rule, nodeType: string, settings: Settings) {
    || !rule.enabled
    || (rule.scope.Scope? && rule.scope.nodeType != "" && rule.scope.nodeType != nodeType)
    || (rule.scope.Scope? && rule.scope.nodeTypes != [] && nodeType !in rule.scope.nodeTypes)
    || (rule.scope.Scope? && rule.scope.taskType != "" &&
        !(nodeType == "agent.execute" && settings.taskType == Some(rule.scope.taskType)))
    || (rule.scope.Scope? && rule.scope.networkMode != "" &&
        !(nodeType == "agent.execute" && rule.scope.networkMode == if settings.networkEnabled then "enabled" else "none"))
    || (rule.scope.Scope? && rule.scope.actionIdPrefixes != [] &&
        !(nodeType == "connector.action" && settings.actionId.Some? && settings.actionId.value != "" &&
          exists p :: p in rule.scope.actionIdPrefixes && p <= settings.actionId.value))
  }

  lemma ExcludedIff(rule: Rule, nodeType: string, settings: Settings)
    ensures RuleMatches(rule, BuildContext(nodeType, settings)) <==> !Excluded(rule, nodeType, settings)
  {
  }

  /** Such a rule can be removed at any place in the list without changing the decision about the node. */
  lemma {:induction false} ExcludedIsRemovable(before: seq<Rule>, rule: Rule, after: seq<Rule>, nodeType: string, settings: Settings)
    requires Excluded(rule, nodeType, settings)
    ensures Evaluate(before + [rule] + after, BuildContext(nodeType, settings)) == Evaluate(before + after, BuildContext(nodeType, settings))
  {
    hide RuleMatches;
    hide Excluded;
    hide BuildContext;
    hide Default;
    if before == [] {
      ExcludedIff(rule, nodeType, settings);
      assert ([rule] + after)[1..] == after && [] + [rule] + after == [rule] + after && [] + after == after;
    } else {
      ExcludedIsRemovable(before[1..], rule, after, nodeType, settings);
      assert (before + [rule] + after)[1..] == before[1..] + [rule] + after;
      assert (before + after)[1..] == before[1..] + after;
    }
  }

  /** A rule that is not of that kind decides if all rules before it are. */
  lemma {:induction false} ApplicableDecides(before: seq<Rule>, rule: Rule, after: seq<Rule>, nodeType: string, settings: Settings)
    requires !Excluded(rule, nodeType, settings)
    requires forall i :: 0 <= i < |before| ==> Excluded(before[i], nodeType, settings)
    ensures var d := Evaluate(before + [rule] + after, BuildContext(nodeType, settings));
      d.effect == rule.effect && d.ruleId == Some(rule.id)
  {
    hide RuleMatches;
    hide Excluded;
    hide BuildContext;
    hide Default;
    if before == [] {
      ExcludedIff(rule, nodeType, settings);
      assert [] + [rule] + after == [rule] + after;
    } else {
      ExcludedIff(before[0], nodeType, settings);
      ApplicableDecides(before[1..], rule, after, nodeType, settings);
      assert (before + [rule] + after)[1..] == before[1..] + [rule] + after;
    }
  }

  /** The parts of an action id between the separators. */
  function Segments(s: string): (r: seq<string>)
    ensures |r| > 0
  {
    if s == [] then [[]]
    else
      var rest := Segments(s[1..]);
      if IsSeparator(s[0]) then [[]] + rest else [[s[0]] + rest[0]] + rest[1..]
  }

  /** A write verb is one of the parts, in lower or upper case. */
  ghost predicate NamesWrite(actionId: string) {
    exists v :: v in Segments(LowerAll(actionId)) && v in WRITE_VERBS
  }

  predicate NoSeparators(v: string) {
    forall i :: 0 <= i < |v| ==> !IsSeparator(v[i])
  }

  /** The text from `i` to `j` stands between separators or the ends. */
  predicate Stands(s: string, i: nat, j: nat) {
    i <= j <= |s| && NoSeparators(s[i..j]) && (i == 0 || IsSeparator(s[i - 1])) && (j == |s| || IsSeparator(s[j]))
  }

  lemma TailSlice(s: string, a: nat, b: nat)
    requires s != [] && a <= b < |s|
    ensures s[1..][a..b] == s[a + 1..b + 1]
  {
  }

  /** What stands after the first character. */
  lemma StandsTail(s: string, a: nat, b: nat)
    requires s != [] && a <= b < |s|
    ensures Stands(s, a + 1, b + 1) <==> Stands(s[1..], a, b) && (a > 0 || IsSeparator(s[0]))
  {
    TailSlice(s, a, b);
    hide NoSeparators;
  }

  /** What stands at the start, and goes on. */
  lemma StandsFirst(s: string, b: nat)
    requires s != [] && b < |s|
    ensures s[0..b + 1] == [s[0]] + s[1..][0..b]
    ensures Stands(s, 0, b + 1) <==> Stands(s[1..], 0, b) && !IsSeparator(s[0])
  {
    var x, y := s[0..b + 1], s[1..][0..b];
    assert x == [s[0]] + y;
    assert NoSeparators(x) <==> NoSeparators(y) && !IsSeparator(s[0]) by {
      assert forall k :: 0 <= k < |y| ==> y[k] == x[k + 1];
      assert forall k :: 0 < k < |x| ==> x[k] == y[k - 1];
    }
    hide NoSeparators;
  }

  /** Every part stands somewhere, the first one at the start and no other. */
  lemma {:induction false} SegmentStands(s: string, k: nat) returns (i: nat, j: nat)
    requires k < |Segments(s)|
    ensures Stands(s, i, j) && s[i..j] == Segments(s)[k] && (k == 0 <==> i == 0)
  {
    if s == [] || (IsSeparator(s[0]) && k == 0) {
      i, j := 0, 0;
    } else {
      hide Stands;
      var a, b := SegmentStands(s[1..], if IsSeparator(s[0]) then k - 1 else k);
      StandsWithin(s[1..], a, b);
      StandsTail(s, a, b);
      TailSlice(s, a, b);
      StandsFirst(s, b);
      i, j := if IsSeparator(s[0]) || k > 0 then a + 1 else 0, b + 1;
    }
  }

  lemma StandsWithin(s: string, i: nat, j: nat)
    requires Stands(s, i, j)
    ensures i <= j <= |s|
    ensures i == 0 && j == 0 ==> s == [] || IsSeparator(s[0])
    ensures i == 0 && j > 0 ==> !IsSeparator(s[0])
  {
    if i == 0 && j > 0 { assert s[0..j][0] == s[0]; }
  }

  /** And what stands somewhere is a part. */
  lemma {:induction false} StandsIsSegment(s: string, i: nat, j: nat) returns (k: nat)
    requires Stands(s, i, j)
    ensures i <= j <= |s|
    ensures k < |Segments(s)| && Segments(s)[k] == s[i..j] && (k == 0 <==> i == 0)
  {
    hide Stands;
    StandsWithin(s, i, j);
    k := 0;
    if i == 0 && j > 0 {
      StandsFirst(s, j - 1);
      var first := StandsIsSegment(s[1..], 0, j - 1);
    } else if i > 0 {
      StandsTail(s, i - 1, j - 1);
      TailSlice(s, i - 1, j - 1);
      var m := StandsIsSegment(s[1..], i - 1, j - 1);
      k := if IsSeparator(s[0]) then m + 1 else m;
    }
  }

  lemma VerbIsPlain(v: string)
    requires v in WRITE_VERBS
    ensures NoSeparators(v)
  {
  }

  lemma LowerSeparator(c: char)
    ensures IsSeparator(Lower(c)) <==> IsSeparator(c)
  {
  }

  lemma LowerSlice(s: string, i: nat, j: nat)
    requires i <= j <= |s|
    ensures LowerAll(s)[i..j] == LowerAll(s[i..j])
  {
    hide Lower;
    hide LowerAll;
    var a, b := LowerAll(s)[i..j], LowerAll(s[i..j]);
    forall k | 0 <= k < |a|
      ensures a[k] == b[k]
    {
      assert a[k] == LowerAll(s)[i + k] && s[i..j][k] == s[i + k];
    }
  }

  lemma LowerSeparators(s: string)
    ensures forall k :: 0 <= k < |s| ==> (IsSeparator(LowerAll(s)[k]) <==> IsSeparator(s[k]))
  {
    hide LowerAll;
    forall k | 0 <= k < |s|
      ensures IsSeparator(LowerAll(s)[k]) <==> IsSeparator(s[k])
    {
      LowerSeparator(s[k]);
    }
  }

  /** What the regular expression finds is exactly that a write verb is one of the parts. */
  lemma LikelyWriteIff(actionId: string)
    ensures LikelyWrite(actionId) <==> NamesWrite(actionId)
  {
    hide Segments;
    var s := LowerAll(actionId);
    LowerSeparators(actionId);
    if LikelyWrite(actionId) {
      var i: nat, j: nat :| i <= j <= |actionId| && WriteAt(actionId, i, j);
      hide LowerAll;
      LowerSlice(actionId, i, j);
      VerbIsPlain(s[i..j]);
      hide NoSeparators;
      var k := StandsIsSegment(s, i, j);
      assert Segments(s)[k] in Segments(s);
    }
    if NamesWrite(actionId) {
      var v :| v in Segments(s) && v in WRITE_VERBS;
      var k: nat :| k < |Segments(s)| && Segments(s)[k] == v;
      hide LowerAll;
      var i, j := SegmentStands(s, k);
      LowerSlice(actionId, i, j);
      assert WriteAt(actionId, i, j);
    }
  }

  /** What decides about a node to which no rule applies. */
  ghost function DefaultEffect(nodeType: string, settings: Settings): Effect {
    if nodeType == "agent.execute" && settings.networkEnabled then Deny
    else if nodeType == "agent.execute" && settings.taskType == Some("shell") then RequireApproval
    else if nodeType == "connector.action" && settings.actionId.Some? && NamesWrite(settings.actionId.value) then RequireApproval
    else Allow
  }

  lemma {:induction false} NoneApplies(rules: seq<Rule>, nodeType: string, settings: Settings)
    requires forall i :: 0 <= i < |rules| ==> Excluded(rules[i], nodeType, settings)
    ensures Evaluate(rules, BuildContext(nodeType, settings)).effect == DefaultEffect(nodeType, settings)
  {
    hide Excluded;
    if rules == [] {
      hide LikelyWrite;
      hide NamesWrite;
      if settings.actionId.Some? { LikelyWriteIff(settings.actionId.value); }
    } else {
      ExcludedIff(rules[0], nodeType, settings);
      hide RuleMatches;
      hide BuildContext;
      hide DefaultEffect;
      NoneApplies(rules[1..], nodeType, settings);
    }
  }

  /** The rule that decides about the node, if any applies. */
  ghost predicate DecidesFirst(rules: seq<Rule>, i: nat, nodeType: string, settings: Settings) {
    i < |rules| && !Excluded(rules[i], nodeType, settings) && forall j :: 0 <= j < i ==> Excluded(rules[j], nodeType, settings)
  }

  lemma {:induction false} FirstApplicable(rules: seq<Rule>, k: nat, nodeType: string, settings: Settings) returns (i: nat)
    requires k <= |rules| && forall j :: 0 <= j < k ==> Excluded(rules[j], nodeType, settings)
    ensures i <= |rules| && (forall j :: 0 <= j < i ==> Excluded(rules[j], nodeType, settings))
    ensures i < |rules| ==> DecidesFirst(rules, i, nodeType, settings)
    decreases |rules| - k
  {
    hide Excluded;
    i := k;
    if k < |rules| && Excluded(rules[k], nodeType, settings) { i := FirstApplicable(rules, k + 1, nodeType, settings); }
  }

  /** The policy's effect, from the rules and the node itself. */
  lemma EffectIs(rules: seq<Rule>, nodeType: string, settings: Settings)
    ensures var effect := Evaluate(rules, BuildContext(nodeType, settings)).effect;
      && (forall i: nat :: DecidesFirst(rules, i, nodeType, settings) ==> effect == rules[i].effect)
      && ((exists i: nat :: DecidesFirst(rules, i, nodeType, settings)) || effect == DefaultEffect(nodeType, settings))
      && ((exists i: nat :: DecidesFirst(rules, i, nodeType, settings)) || forall i :: 0 <= i < |rules| ==> Excluded(rules[i], nodeType, settings))
  {
    hide Excluded;
    hide Evaluate;
    hide BuildContext;
    hide DefaultEffect;
    forall i: nat | DecidesFirst(rules, i, nodeType, settings)
      ensures Evaluate(rules, BuildContext(nodeType, settings)).effect == rules[i].effect
    {
      ApplicableDecides(rules[..i], rules[i], rules[i + 1..], nodeType, settings);
      assert rules[..i] + [rules[i]] + rules[i + 1..] == rules;
    }
    var i := FirstApplicable(rules, 0, nodeType, settings);
    if i == |rules| { NoneApplies(rules, nodeType, settings); }
  }
}
