/** Session routing (packages/agent-runtime/src/session-routing.ts): the binding that decides which agent
    serves a session, and the session key.

    `lower` stands for `toLowerCase` and `leq` for the order of `localeCompare` on binding ids. */
module Routing {
  import opened Common
  import Text

  // ---------------------------------------------------------------- choosing a binding

  datatype Dimension = Peer | ParentPeer | OrgRoles | Organization | Team | Account | Channel | Default

  datatype Match = Match(peer: Option<string>, parentPeer: Option<string>, orgRoles: seq<string>, organizationId: Option<string>,
                         teamId: Option<string>, accountId: Option<string>, channelId: Option<string>)

  datatype Binding = Binding(id: string, organizationId: string, agentId: string, priority: int, dimension: Dimension, match_: Match)

  datatype Scope = Main | PerPeer | PerChannelPeer | PerAccountChannelPeer

  datatype RouteContext = RouteContext(organizationId: string, actorUserId: string, channel: Option<string>, account: Option<string>,
                                       peer: Option<string>, parentPeer: Option<string>, orgRoles: seq<string>, team: Option<string>,
                                       scope: Scope)

  function Rank(d: Dimension): nat {
    match d
    case Peer => 0 case ParentPeer => 1 case OrgRoles => 2 case Organization => 3
    case Team => 4 case Account => 5 case Channel => 6 case Default => 7
  }

  /** Both present, not empty, and equal. */
  predicate Same(a: Option<string>, b: Option<string>) {
    a.Some? && a == b && a.value != ""
  }

  predicate Matches(b: Binding, ctx: RouteContext) {
    match b.dimension
    case Peer => Same(b.match_.peer, ctx.peer)
    case ParentPeer => Same(b.match_.parentPeer, ctx.parentPeer)
    case OrgRoles => exists r :: r in b.match_.orgRoles && r in ctx.orgRoles
    case Organization => Same(b.match_.organizationId, Some(ctx.organizationId))
    case Team => Same(b.match_.teamId, ctx.team)
    case Account => Same(b.match_.accountId, ctx.account)
    case Channel => Same(b.match_.channelId, ctx.channel)
    case Default => true
  }

  predicate IsCandidate(b: Binding, ctx: RouteContext) {
    b.organizationId == ctx.organizationId && Matches(b, ctx)
  }

  type Order = (string, string) -> bool

  ghost predicate TotalOrder(leq: Order) {
    && (forall a, b :: leq(a, b) || leq(b, a))
    && (forall a, b :: leq(a, b) && leq(b, a) ==> a == b)
    && (forall a, b, c :: leq(a, b) && leq(b, c) ==> leq(a, c))
  }

  /** The comparator: by dimension, then the higher priority, then by id. */
  predicate Precedes(leq: Order, a: Binding, b: Binding) {
    || Rank(a.dimension) < Rank(b.dimension)
    || (Rank(a.dimension) == Rank(b.dimension) && (a.priority > b.priority || (a.priority == b.priority && leq(a.id, b.id))))
  }

  function Candidates(bindings: seq<Binding>, ctx: RouteContext): (r: seq<Binding>)
    ensures forall b :: b in r <==> b in bindings && IsCandidate(b, ctx)
  {
    if bindings == [] then []
    else
      var rest, last := Candidates(bindings[..|bindings| - 1], ctx), bindings[|bindings| - 1];
      if IsCandidate(last, ctx) then rest + [last] else rest
  }

  function InsertSorted(leq: Order, b: Binding, sorted: seq<Binding>): (r: seq<Binding>)
    ensures multiset(r) == multiset(sorted) + multiset{b}
  {
    if sorted == [] then [b]
    else if Precedes(leq, sorted[0], b) then
      assert sorted == [sorted[0]] + sorted[1..];
      [sorted[0]] + InsertSorted(leq, b, sorted[1..])
    else [b] + sorted
  }

  function SortBindings(leq: Order, bindings: seq<Binding>): (r: seq<Binding>)
    ensures multiset(r) == multiset(bindings)
  {
    if bindings == [] then []
    else
      assert bindings == bindings[..|bindings| - 1] + [bindings[|bindings| - 1]];
      InsertSorted(leq, bindings[|bindings| - 1], SortBindings(leq, bindings[..|bindings| - 1]))
  }

  ghost predicate Sorted(leq: Order, s: seq<Binding>) {
    forall i, j :: 0 <= i < j < |s| ==> Precedes(leq, s[i], s[j])
  }

  lemma PrecedesTotal(leq: Order, a: Binding, b: Binding)
    requires TotalOrder(leq)
    ensures Precedes(leq, a, b) || Precedes(leq, b, a)
  {
  }

  lemma PrecedesTransitive(leq: Order, a: Binding, b: Binding, c: Binding)
    requires TotalOrder(leq) && Precedes(leq, a, b) && Precedes(leq, b, c)
    ensures Precedes(leq, a, c)
  {
  }

  lemma {:induction false} InsertKeepsSorted(leq: Order, b: Binding, s: seq<Binding>)
    requires TotalOrder(leq) && Sorted(leq, s)
    ensures Sorted(leq, InsertSorted(leq, b, s))
  {
    hide TotalOrder;
    hide Precedes;
    var r := InsertSorted(leq, b, s);
    if s != [] && Precedes(leq, s[0], b) {
      InsertKeepsSorted(leq, b, s[1..]);
      forall j | 0 < j < |r|
        ensures Precedes(leq, r[0], r[j])
      {
        var x := r[1..][j - 1];
        assert x in multiset(r[1..]);
        assert x == b || x in s[1..];
        if x != b {
          var k :| 0 <= k < |s[1..]| && s[1..][k] == x;
          assert s[k + 1] == x;
        }
      }
      assert r == [s[0]] + r[1..];
    } else if s != [] {
      PrecedesTotal(leq, s[0], b);
      forall j | 0 < j < |r|
        ensures Precedes(leq, b, r[j])
      {
        if j > 1 { PrecedesTransitive(leq, b, s[0], s[j - 1]); }
      }
    }
  }

  lemma {:induction false} SortIsSorted(leq: Order, s: seq<Binding>)
    requires TotalOrder(leq)
    ensures Sorted(leq, SortBindings(leq, s))
  {
    if s != [] {
      SortIsSorted(leq, s[..|s| - 1]);
      InsertKeepsSorted(leq, s[|s| - 1], SortBindings(leq, s[..|s| - 1]));
    }
  }

  /** The binding a context is routed by. */
  function Select(leq: Order, bindings: seq<Binding>, ctx: RouteContext): Option<Binding> {
    var sorted := SortBindings(leq, Candidates(bindings, ctx));
    if sorted == [] then None else Some(sorted[0])
  }

  /** The choice is the least candidate: nearest dimension, then highest priority, then id; and there is
      one unless nothing matches. */
  lemma SelectsLeast(leq: Order, bindings: seq<Binding>, ctx: RouteContext)
    requires TotalOrder(leq)
    ensures var r := Select(leq, bindings, ctx);
      && (r.None? <==> forall b :: b in bindings ==> !IsCandidate(b, ctx))
      && (r.Some? ==> r.value in bindings && IsCandidate(r.value, ctx))
      && (r.Some? ==> forall b :: b in bindings && IsCandidate(b, ctx) ==> Precedes(leq, r.value, b))
  {
    hide Precedes;
    hide IsCandidate;
    var cs := Candidates(bindings, ctx);
    var sorted := SortBindings(leq, cs);
    SortIsSorted(leq, cs);
    assert forall b :: b in multiset(sorted) <==> b in multiset(cs);
    forall b | b in bindings && IsCandidate(b, ctx)
      ensures sorted != [] && Precedes(leq, sorted[0], b)
    {
      assert b in cs;
      assert b in multiset(sorted);
      var i :| 0 <= i < |sorted| && sorted[i] == b;
      PrecedesTotal(leq, b, b);
    }
    if sorted != [] {
      assert sorted[0] in multiset(sorted);
      assert sorted[0] in cs;
    }
  }

  ghost predicate UniqueIds(bindings: seq<Binding>) {
    forall a, b :: a in bindings && b in bindings && a.id == b.id ==> a == b
  }

  /** The choice does not depend on the order in which the bindings are listed. */
  lemma SelectIgnoresOrder(leq: Order, xs: seq<Binding>, ys: seq<Binding>, ctx: RouteContext)
    requires TotalOrder(leq) && UniqueIds(xs) && multiset(xs) == multiset(ys)
    ensures Select(leq, xs, ctx) == Select(leq, ys, ctx)
  {
    hide Select;
    hide IsCandidate;
    assert forall b :: b in xs <==> b in multiset(xs);
    assert forall b :: b in ys <==> b in multiset(ys);
    SelectsLeast(leq, xs, ctx);
    SelectsLeast(leq, ys, ctx);
    var a, b := Select(leq, xs, ctx), Select(leq, ys, ctx);
    if a.Some? && b.Some? {
      assert a.value.id == b.value.id;
    }
  }

  // ---------------------------------------------------------------- what the choice means

  /** Both name the same thing, and not nothing. */
  ghost predicate Agree(a: Option<string>, b: Option<string>) {
    exists v :: v != "" && a == Some(v) && b == Some(v)
  }

  /** The binding is of the context's organisation and about it, in the way of its dimension. */
  ghost predicate Suits(b: Binding, ctx: RouteContext) {
    && b.organizationId == ctx.organizationId
    && (b.dimension == Peer ==> Agree(b.match_.peer, ctx.peer))
    && (b.dimension == ParentPeer ==> Agree(b.match_.parentPeer, ctx.parentPeer))
    && (b.dimension == OrgRoles ==> exists i, j ::
          0 <= i < |b.match_.orgRoles| && 0 <= j < |ctx.orgRoles| && b.match_.orgRoles[i] == ctx.orgRoles[j])
    && (b.dimension == Organization ==> Agree(b.match_.organizationId, Some(ctx.organizationId)))
    && (b.dimension == Team ==> Agree(b.match_.teamId, ctx.team))
    && (b.dimension == Account ==> Agree(b.match_.accountId, ctx.account))
    && (b.dimension == Channel ==> Agree(b.match_.channelId, ctx.channel))
  }

  const NEAREST := [Peer, ParentPeer, OrgRoles, Organization, Team, Account, Channel, Default]

  /** `a` goes before `b`: it is of a nearer dimension, or of the same with a higher priority, or with the same
      priority and a smaller id. */
  ghost predicate Before(leq: Order, a: Binding, b: Binding) {
    || (exists i, j :: 0 <= i < j < |NEAREST| && NEAREST[i] == a.dimension && NEAREST[j] == b.dimension)
    || (a.dimension == b.dimension && a.priority > b.priority)
    || (a.dimension == b.dimension && a.priority == b.priority && leq(a.id, b.id))
  }

  lemma SuitsIff(b: Binding, ctx: RouteContext)
    ensures IsCandidate(b, ctx) <==> Suits(b, ctx)
  {
    forall x: Option<string>, y: Option<string>
      ensures Same(x, y) <==> Agree(x, y)
    {
      if Same(x, y) { assert x.value != "" && x == Some(x.value) && y == Some(x.value); }
    }
    hide Same;
    hide Agree;
    RolesMeet(b.match_.orgRoles, ctx.orgRoles);
  }

  lemma RolesMeet(xs: seq<string>, ys: seq<string>)
    ensures (exists r :: r in xs && r in ys) <==> exists i, j :: 0 <= i < |xs| && 0 <= j < |ys| && xs[i] == ys[j]
  {
    forall r | r in xs && r in ys
      ensures exists i, j :: 0 <= i < |xs| && 0 <= j < |ys| && xs[i] == ys[j]
    {
      var i :| 0 <= i < |xs| && xs[i] == r;
      var j :| 0 <= j < |ys| && ys[j] == r;
    }
    forall i, j | 0 <= i < |xs| && 0 <= j < |ys| && xs[i] == ys[j]
      ensures xs[i] in xs && xs[i] in ys
    {
    }
  }

  lemma RankIsPlace(d: Dimension)
    ensures Rank(d) < |NEAREST| && NEAREST[Rank(d)] == d
    ensures forall i :: 0 <= i < |NEAREST| && NEAREST[i] == d ==> i == Rank(d)
  {
  }

  lemma BeforeIff(leq: Order, a: Binding, b: Binding)
    ensures Precedes(leq, a, b) <==> Before(leq, a, b)
  {
    RankIsPlace(a.dimension);
    RankIsPlace(b.dimension);
    var x, y := Rank(a.dimension), Rank(b.dimension);
    hide Rank;
    if x < y { assert NEAREST[x] == a.dimension && NEAREST[y] == b.dimension; }
  }

  // ---------------------------------------------------------------- session keys

  type Lower = string -> string

  /** The characters a key part may consist of. */
  predicate Plain(c: char) {
    'a' <= c <= 'z' || '0' <= c <= '9' || c == '.' || c == '_' || c == '-'
  }

  predicate AllPlain(s: string) {
    forall i :: 0 <= i < |s| ==> Plain(s[i])
  }

  function SkipOdd(s: string): (r: string)
    ensures |r| <= |s| && (s != [] && !Plain(s[0]) ==> |r| < |s|)
  {
    if s != [] && !Plain(s[0]) then SkipOdd(s[1..]) else s
  }

  /** Each maximal run of other characters becomes one hyphen. */
  function Collapse(s: string): (r: string)
    ensures AllPlain(r)
    decreases |s|
  {
    if s == [] then []
    else if Plain(s[0]) then [s[0]] + Collapse(s[1..])
    else ['-'] + Collapse(SkipOdd(s))
  }

  function NormalizePart(lower: Lower, value: string): (r: string)
    ensures AllPlain(r)
  {
    Collapse(lower(Text.Trim(value)))
  }

  function SafePart(lower: Lower, value: Option<string>, fallback: string): (r: string)
    ensures AllPlain(fallback) ==> AllPlain(r)
  {
    if value.None? || Text.Trim(value.value) == "" then fallback
    else
      var normalized := NormalizePart(lower, value.value);
      if normalized == "" then fallback else normalized
  }

  lemma {:induction false} PlainIsTrimmed(s: string)
    requires AllPlain(s)
    ensures Text.Trim(s) == s && Collapse(s) == s
  {
    hide Collapse;
    CollapsePlain(s);
    if s != [] {
      PlainIsNoSpace(s[0]);
      PlainIsNoSpace(s[|s| - 1]);
    }
  }

  lemma PlainIsNoSpace(c: char)
    requires Plain(c)
    ensures !Text.IsSpace(c)
  {
    assert c as int > 32 && c as int < 128;
  }

  lemma {:induction false} CollapsePlain(s: string)
    requires AllPlain(s)
    ensures Collapse(s) == s
  {
    if s != [] {
      CollapsePlain(s[1..]);
      assert s == [s[0]] + s[1..];
    }
  }

  /** A part that is already normal stays as it is, so normalising twice is normalising once; in
      particular the names of the scopes stand for themselves. Lower-casing must leave it alone. */
  lemma NormalPartIsFixed(lower: Lower, s: string, fallback: string)
    requires AllPlain(s) && s != "" && lower(s) == s
    ensures SafePart(lower, Some(s), fallback) == s
  {
    PlainIsTrimmed(s);
  }

  ghost predicate NonePlain(s: string) {
    forall i :: 0 <= i < |s| ==> !Plain(s[i])
  }

  /** A part of a key: the fallback for nothing but white space, otherwise what is left without the white
      space around it, in lower case, each run of other characters made one hyphen. */
  lemma PartIs(lower: Lower, before: string, text: string, after: string, fallback: string)
    requires Text.Blank(before) && Text.Blank(after)
    requires text != "" ==> !Text.IsSpace(text[0]) && !Text.IsSpace(text[|text| - 1])
    ensures SafePart(lower, Some(before + text + after), fallback) ==
      if text == "" || lower(text) == "" then fallback else Collapse(lower(text))
    ensures SafePart(lower, None, fallback) == fallback
  {
    hide Text.Trim;
    hide Text.IsSpace;
    if text == "" {
      Text.TrimBlank(before + after);
      assert before + text + after == before + after;
    } else {
      Text.TrimAround(before, text, after);
    }
  }

  lemma {:induction false} CollapseRuns(plain: string, odd: string, rest: string)
    requires AllPlain(plain) && NonePlain(odd) && odd != "" && (rest != "" ==> Plain(rest[0]))
    ensures Collapse(plain + odd + rest) == plain + "-" + Collapse(rest)
    ensures Collapse(plain) == plain
  {
    hide Plain;
    CollapsePlain(plain);
    var s := plain + odd + rest;
    if plain != "" {
      assert s[0] == plain[0] && s[1..] == plain[1..] + odd + rest;
      CollapseRuns(plain[1..], odd, rest);
      assert plain == [plain[0]] + plain[1..];
    } else {
      assert s == odd + rest && s[0] == odd[0];
      SkipRun(odd, rest);
    }
  }

  lemma {:induction false} SkipRun(odd: string, rest: string)
    requires NonePlain(odd) && (rest != "" ==> Plain(rest[0]))
    ensures SkipOdd(odd + rest) == rest
  {
    hide Plain;
    if odd != "" {
      assert (odd + rest)[1..] == odd[1..] + rest;
      SkipRun(odd[1..], rest);
    } else {
      assert odd + rest == rest;
    }
  }

  datatype KeyInput = KeyInput(agentId: string, organizationId: string, scope: Scope, actorUserId: string,
                               channel: Option<string>, account: Option<string>, peer: Option<string>)

  function ScopeName(s: Scope): (n: string)
    ensures AllPlain(n)
  {
    match s
    case Main => "main"
    case PerPeer => "per-peer"
    case PerChannelPeer => "per-channel-peer"
    case PerAccountChannelPeer => "per-account-channel-peer"
  }

  function AgentPart(lower: Lower, k: KeyInput): (r: string)
    ensures AllPlain(r)
  {
    assert AllPlain("default");
    SafePart(lower, Some(k.agentId), "default")
  }

  function OrgPart(lower: Lower, k: KeyInput): (r: string)
    ensures AllPlain(r)
  {
    assert AllPlain("unknown-org");
    SafePart(lower, Some(k.organizationId), "unknown-org")
  }

  function PeerPart(lower: Lower, k: KeyInput): (r: string)
    ensures AllPlain(r)
  {
    assert AllPlain("anonymous");
    var peer := if k.peer.Some? then k.peer else Some(k.actorUserId);
    SafePart(lower, peer, "anonymous")
  }

  function ChannelPart(lower: Lower, k: KeyInput): (r: string)
    ensures AllPlain(r)
  {
    assert AllPlain("unknown-channel");
    SafePart(lower, k.channel, "unknown-channel")
  }

  function AccountPart(lower: Lower, k: KeyInput): (r: string)
    ensures AllPlain(r)
  {
    assert AllPlain("unknown-account");
    SafePart(lower, k.account, "unknown-account")
  }

  function BuildSessionKey(lower: Lower, k: KeyInput): string {
    var base := "agent:" + AgentPart(lower, k) + ":org:" + OrgPart(lower, k) + ":scope:" + ScopeName(k.scope);
    match k.scope
    case Main => base
    case PerPeer => base + ":peer:" + PeerPart(lower, k)
    case PerChannelPeer => base + ":channel:" + ChannelPart(lower, k) + ":peer:" + PeerPart(lower, k)
    case PerAccountChannelPeer =>
      base + ":account:" + AccountPart(lower, k) + ":channel:" + ChannelPart(lower, k) + ":peer:" + PeerPart(lower, k)
  }

  /** The parts between the colons. */
  function KeyParts(lower: Lower, k: KeyInput): seq<string> {
    ["agent", AgentPart(lower, k), "org", OrgPart(lower, k), "scope", ScopeName(k.scope)] +
    match k.scope
    case Main => []
    case PerPeer => ["peer", PeerPart(lower, k)]
    case PerChannelPeer => ["channel", ChannelPart(lower, k), "peer", PeerPart(lower, k)]
    case PerAccountChannelPeer => ["account", AccountPart(lower, k), "channel", ChannelPart(lower, k), "peer", PeerPart(lower, k)]
  }

  lemma {:induction false} JoinTwo(parts: seq<string>, name: string, value: string)
    requires |parts| > 0
    ensures Text.Join(parts + [name, value], ':') == Text.Join(parts, ':') + ":" + name + ":" + value
  {
    if |parts| == 1 {
      var rest := [name, value];
      assert rest[1..] == [value];
      assert Text.Join([value], ':') == value;
      assert Text.Join(rest, ':') == name + ":" + value;
      assert (parts + rest)[1..] == rest && (parts + rest)[0] == parts[0];
      assert Text.Join(parts + rest, ':') == parts[0] + ":" + (name + ":" + value);
      assert parts[0] + ":" + (name + ":" + value) == parts[0] + ":" + name + ":" + value;
    } else {
      assert (parts + [name, value])[1..] == parts[1..] + [name, value];
      JoinTwo(parts[1..], name, value);
    }
  }

  /** Appending a labelled part to a key. */
  lemma {:induction false} JoinLabel(parts: seq<string>, name: string, tag: string, value: string)
    requires |parts| > 0 && tag == ":" + name + ":"
    ensures Text.Join(parts + [name, value], ':') == Text.Join(parts, ':') + tag + value
  {
    JoinTwo(parts, name, value);
    var x := Text.Join(parts, ':');
    assert x + ":" + name + ":" + value == x + (":" + name + ":") + value;
  }

  function BaseParts(lower: Lower, k: KeyInput): seq<string> {
    ["agent", AgentPart(lower, k)] + ["org", OrgPart(lower, k)] + ["scope", ScopeName(k.scope)]
  }

  lemma BaseIsJoin(lower: Lower, k: KeyInput)
    ensures Text.Join(BaseParts(lower, k), ':')
         == "agent:" + AgentPart(lower, k) + ":org:" + OrgPart(lower, k) + ":scope:" + ScopeName(k.scope)
  {
    hide SafePart;
    hide ScopeName;
    var agent := AgentPart(lower, k);
    assert ["agent", agent][1..] == [agent];
    assert Text.Join(["agent", agent], ':') == "agent" + ":" + agent;
    assert "agent" + ":" == "agent:";
    JoinLabel(["agent", agent], "org", ":org:", OrgPart(lower, k));
    JoinLabel(["agent", agent] + ["org", OrgPart(lower, k)], "scope", ":scope:", ScopeName(k.scope));
  }

  lemma KeyIsJoin(lower: Lower, k: KeyInput)
    ensures BuildSessionKey(lower, k) == Text.Join(KeyParts(lower, k), ':')
  {
    hide SafePart;
    hide ScopeName;
    hide Text.Join;
    BaseIsJoin(lower, k);
    var base := BaseParts(lower, k);
    match k.scope
    case Main => assert KeyParts(lower, k) == base;
    case PerPeer =>
      JoinLabel(base, "peer", ":peer:", PeerPart(lower, k));
      assert KeyParts(lower, k) == base + ["peer", PeerPart(lower, k)];
    case PerChannelPeer =>
      var more := base + ["channel", ChannelPart(lower, k)];
      JoinLabel(base, "channel", ":channel:", ChannelPart(lower, k));
      JoinLabel(more, "peer", ":peer:", PeerPart(lower, k));
      assert KeyParts(lower, k) == more + ["peer", PeerPart(lower, k)];
    case PerAccountChannelPeer =>
      var more := base + ["account", AccountPart(lower, k)];
      var most := more + ["channel", ChannelPart(lower, k)];
      JoinLabel(base, "account", ":account:", AccountPart(lower, k));
      JoinLabel(more, "channel", ":channel:", ChannelPart(lower, k));
      JoinLabel(most, "peer", ":peer:", PeerPart(lower, k));
      assert KeyParts(lower, k) == most + ["peer", PeerPart(lower, k)];
  }

  /** What a session key identifies: the scope, agent, organisation and what the scope looks at, as parts of a
      key; who acts stands for the peer where none is given. */
  ghost predicate SameSession(lower: Lower, a: KeyInput, b: KeyInput) {
    && a.scope == b.scope
    && SafePart(lower, Some(a.agentId), "default") == SafePart(lower, Some(b.agentId), "default")
    && SafePart(lower, Some(a.organizationId), "unknown-org") == SafePart(lower, Some(b.organizationId), "unknown-org")
    && (a.scope != Main ==>
          SafePart(lower, if a.peer.Some? then a.peer else Some(a.actorUserId), "anonymous")
          == SafePart(lower, if b.peer.Some? then b.peer else Some(b.actorUserId), "anonymous"))
    && (a.scope == PerChannelPeer || a.scope == PerAccountChannelPeer ==>
          SafePart(lower, a.channel, "unknown-channel") == SafePart(lower, b.channel, "unknown-channel"))
    && (a.scope == PerAccountChannelPeer ==>
          SafePart(lower, a.account, "unknown-account") == SafePart(lower, b.account, "unknown-account"))
  }

  lemma PlainHasNoColon(s: string)
    requires AllPlain(s)
    ensures ':' !in s
  {
  }

  ghost predicate PlainParts(parts: seq<string>) {
    forall i :: 0 <= i < |parts| ==> AllPlain(parts[i])
  }

  lemma KeyPartsPlain(lower: Lower, k: KeyInput)
    ensures PlainParts(KeyParts(lower, k))
  {
    hide SafePart;
    hide ScopeName;
    assert AllPlain("agent") && AllPlain("org") && AllPlain("scope") && AllPlain("peer") && AllPlain("channel") && AllPlain("account");
    hide AllPlain;
  }

  lemma PartsHaveNoColon(lower: Lower, k: KeyInput)
    ensures Text.SeparatorFree(KeyParts(lower, k), ':')
  {
    hide AllPlain;
    hide KeyParts;
    KeyPartsPlain(lower, k);
    var parts := KeyParts(lower, k);
    forall i | 0 <= i < |parts|
      ensures ':' !in parts[i]
    {
      PlainHasNoColon(parts[i]);
    }
  }

  /** Keys collide only for the same session: no part can contain the separator. */
  lemma KeysEqualIff(lower: Lower, a: KeyInput, b: KeyInput)
    ensures BuildSessionKey(lower, a) == BuildSessionKey(lower, b) <==> SameSession(lower, a, b)
  {
    hide SafePart;
    hide BuildSessionKey;
    KeyIsJoin(lower, a);
    KeyIsJoin(lower, b);
    PartsHaveNoColon(lower, a);
    PartsHaveNoColon(lower, b);
    var x, y := KeyParts(lower, a), KeyParts(lower, b);
    Text.SplitJoin(x, ':');
    Text.SplitJoin(y, ':');
    SamePartsIff(lower, a, b);
  }

  lemma SamePartsIff(lower: Lower, a: KeyInput, b: KeyInput)
    ensures KeyParts(lower, a) == KeyParts(lower, b) <==> SameSession(lower, a, b)
  {
    hide SafePart;
    hide ScopeName;
    var x, y := KeyParts(lower, a), KeyParts(lower, b);
    if x == y {
      assert x[1] == y[1] && x[3] == y[3] && x[5] == y[5];
      ScopeNamesDiffer(a.scope, b.scope);
      match a.scope
      case Main =>
      case PerPeer => assert x[7] == y[7];
      case PerChannelPeer => assert x[7] == y[7] && x[9] == y[9];
      case PerAccountChannelPeer => assert x[7] == y[7] && x[9] == y[9] && x[11] == y[11];
    }
  }

  lemma ScopeNamesDiffer(a: Scope, b: Scope)
    requires ScopeName(a) == ScopeName(b)
    ensures a == b
  {
    assert |ScopeName(a)| == |ScopeName(b)|;
  }

  // ---------------------------------------------------------------- routing a session

  datatype Resolved = Resolved(routedAgentId: string, sessionKey: string, bindingId: Option<string>)

  function ResolveRoutedAgent(leq: Order, lower: Lower, bindings: seq<Binding>, ctx: RouteContext, defaultAgentId: string): Resolved {
    var selected := Select(leq, bindings, ctx);
    var agentId := if selected.Some? then selected.value.agentId else defaultAgentId;
    var key := BuildSessionKey(lower, KeyInput(agentId, ctx.organizationId, ctx.scope, ctx.actorUserId, ctx.channel, ctx.account, ctx.peer));
    Resolved(agentId, key, if selected.Some? then Some(selected.value.id) else None)
  }

  /** The binding suits the context and goes before every other one that does. */
  ghost predicate Chosen(leq: Order, bindings: seq<Binding>, ctx: RouteContext, b: Binding) {
    b in bindings && Suits(b, ctx) && forall c :: c in bindings && Suits(c, ctx) ==> Before(leq, b, c)
  }

  /** Who serves a session: the agent of the chosen binding, or the default agent where none suits; and the key
      is that of this agent. */
  lemma RoutedBy(leq: Order, lower: Lower, bindings: seq<Binding>, ctx: RouteContext, fallback: string)
    requires TotalOrder(leq)
    ensures var r := ResolveRoutedAgent(leq, lower, bindings, ctx, fallback);
      && (r.bindingId.None? <==> forall b :: b in bindings ==> !Suits(b, ctx))
      && (r.bindingId.None? ==> r.routedAgentId == fallback)
      && (r.bindingId.Some? ==>
            exists b :: Chosen(leq, bindings, ctx, b) && r.bindingId == Some(b.id) && r.routedAgentId == b.agentId)
      && r.sessionKey == BuildSessionKey(lower, KeyInput(r.routedAgentId, ctx.organizationId, ctx.scope, ctx.actorUserId,
                                                         ctx.channel, ctx.account, ctx.peer))
  {
    hide Select;
    hide BuildSessionKey;
    SelectsLeast(leq, bindings, ctx);
    forall b
      ensures IsCandidate(b, ctx) <==> Suits(b, ctx)
    {
      SuitsIff(b, ctx);
    }
    forall b, c
      ensures Precedes(leq, b, c) <==> Before(leq, b, c)
    {
      BeforeIff(leq, b, c);
    }
    hide IsCandidate;
    hide Suits;
    hide Precedes;
    hide Before;
    var selected := Select(leq, bindings, ctx);
    if selected.Some? { assert Chosen(leq, bindings, ctx, selected.value); }
  }

  /** The agent, the key and the binding on record do not depend on the order of the binding list. */
  lemma RoutingIgnoresOrder(leq: Order, lower: Lower, xs: seq<Binding>, ys: seq<Binding>, ctx: RouteContext, fallback: string)
    requires TotalOrder(leq) && UniqueIds(xs) && multiset(xs) == multiset(ys)
    ensures ResolveRoutedAgent(leq, lower, xs, ctx, fallback) == ResolveRoutedAgent(leq, lower, ys, ctx, fallback)
  {
    hide Select;
    SelectIgnoresOrder(leq, xs, ys, ctx);
  }
}
