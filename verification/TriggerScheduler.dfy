/** The fire/advance protocol of one trigger subscription under one scheduler:
    read the due slot, insert a run row under the slot's unique key, enqueue it, advance the slot;
    with insert, queue, delete and update failures, and crashes, between any two of these.
    Instants are milliseconds. */
module TriggerScheduler {
  import opened Common
  import opened Cron

  datatype Trigger =
    | CronTrigger(fires: int -> bool)
    | Heartbeat(intervalSec: int, jitterSec: int, maxSkewSec: int)

  /** A run row the scheduler created; the slot stands for its trigger key. `started` means that a
      worker has picked it up, so it is no longer queued with zero attempts. */
  datatype Row = Row(slot: int, started: bool)

  /** Where the scheduler stands inside `processDueSubscription`. */
  datatype Pc =
    | Idle
    | Due(now: int, slot: int)
    | Inserted(now: int, slot: int)
    | Compensating(now: int, slot: int)
    | Advancing(now: int, slot: int)

  /** `first` and `sawNull` are history: the first slot ever scheduled, and whether a cron scan ever
      came back empty. */
  datatype World = World(nextFireAt: Option<int>, lastTriggeredAt: Option<int>, rows: seq<Row>, pc: Pc,
                         first: Option<int>, sawNull: bool)

  datatype Action =
    | Tick(now: int, jitter: int)
    | InsertOk | InsertFails
    | QueueOk | QueueFails
    | DeleteOk | DeleteFails
    | AdvanceOk(jitter: int) | AdvanceFails
    | Crash
    | WorkerStarts(row: nat)

  const INITIAL := World(None, None, [], Idle, None, false)
  const FIVE_MINUTES := 5 * MINUTE_MS

  // ---------------------------------------------------------------- heartbeat arithmetic

  function IntervalMs(t: Trigger): (ms: int)
    requires t.Heartbeat?
    ensures ms >= 1000
  {
    Max(1, t.intervalSec) * 1000
  }

  predicate JitterInRange(t: Trigger, jitter: int)
    requires t.Heartbeat?
  {
    0 <= jitter <= Max(0, t.jitterSec)
  }

  function HeartbeatNext(t: Trigger, base: int, jitter: int): int
    requires t.Heartbeat?
  {
    base + IntervalMs(t) + jitter * 1000
  }

  /** The base of the next slot: the fired slot, or the present if the firing is too late. */
  function HeartbeatBase(t: Trigger, slot: int, now: int): int
    requires t.Heartbeat?
  {
    if now - slot > Max(0, t.maxSkewSec) * 1000 then now else slot
  }

  function AfterFiring(t: Trigger, slot: int, now: int, jitter: int): int
    requires t.Heartbeat?
  {
    HeartbeatNext(t, HeartbeatBase(t, slot, now), jitter)
  }

  /** The interval and the allowed skew in milliseconds: at least a second, and not negative. */
  predicate Timing(t: Trigger, interval: int, skew: int)
    requires t.Heartbeat?
  {
    && interval == 1000 * (if t.intervalSec < 1 then 1 else t.intervalSec)
    && skew == 1000 * (if t.maxSkewSec < 0 then 0 else t.maxSkewSec)
  }

  /** After a firing at `now` the next slot is an interval and the jitter after the fired one, or after the
      present if that was more than the allowed skew ago; so it is at least an interval after the fired one
      and inside [now - maxSkew + interval, now + interval + jitter]. */
  lemma HeartbeatBounds(t: Trigger, slot: int, now: int, jitter: int, interval: int, skew: int)
    requires t.Heartbeat? && slot <= now && JitterInRange(t, jitter) && Timing(t, interval, skew)
    ensures var next := AfterFiring(t, slot, now, jitter);
      && next == (if now - slot > skew then now else slot) + interval + 1000 * jitter
      && next >= slot + interval
      && now - skew + interval <= next
      && next <= now + interval + (if t.jitterSec < 0 then 0 else 1000 * t.jitterSec)
  {
  }

  /** A burst: with the clock held at `now` there is one firing per jitter, each of a due slot. */
  predicate AllDue(t: Trigger, slot: int, now: int, jitters: seq<int>)
    requires t.Heartbeat?
    decreases |jitters|
  {
    jitters == [] ||
    (slot <= now && JitterInRange(t, jitters[0]) && AllDue(t, AfterFiring(t, slot, now, jitters[0]), now, jitters[1..]))
  }

  /** With the clock held, each firing after the first uses up one interval of the allowed skew. */
  lemma {:induction false} BurstUsesSkew(t: Trigger, slot: int, now: int, jitters: seq<int>, interval: int, skew: int)
    requires t.Heartbeat? && AllDue(t, slot, now, jitters) && |jitters| > 0 && Timing(t, interval, skew)
    ensures (|jitters| - 1) * interval <= skew
    ensures slot <= now - skew - 1 ==> |jitters| == 1
    ensures (|jitters| - 1) * interval <= now - slot
    decreases |jitters|
  {
    if |jitters| > 1 {
      var next := AfterFiring(t, slot, now, jitters[0]);
      BurstUsesSkew(t, next, now, jitters[1..], interval, skew);
      HeartbeatBounds(t, slot, now, jitters[0], interval, skew);
      var n := |jitters| - 2;
      assert (n + 1) * interval == n * interval + interval;
    }
  }

  /** At most floor(maxSkew / interval) + 1 firings happen before the subscription is no longer due. */
  lemma {:induction false} BurstBound(t: Trigger, slot: int, now: int, jitters: seq<int>, interval: int, skew: int)
    requires t.Heartbeat? && AllDue(t, slot, now, jitters) && Timing(t, interval, skew)
    ensures |jitters| <= skew / interval + 1
  {
    hide AllDue;
    assert interval > 0 && skew >= 0;
    hide Timing;
    if |jitters| > 0 { BurstUsesSkew(t, slot, now, jitters, interval, skew); }
    AtMostQuotient(if |jitters| > 0 then |jitters| - 1 else 0, interval, skew);
  }

  lemma AtMostQuotient(k: int, d: int, x: int)
    requires d > 0 && k * d <= x
    ensures k <= x / d
  {
    QuotientBound(x, d, x / d);
    Monotone(x / d + 1, k, d);
  }

  lemma QuotientBound(x: int, d: int, q: int)
    requires d > 0 && q == x / d
    ensures x < (q + 1) * d
  {
  }

  lemma Monotone(a: int, b: int, d: int)
    requires d > 0
    ensures a <= b ==> a * d <= b * d
  {
  }

  /** The bound is reached: starting exactly `k` intervals late, for any `k` the skew admits and
      without jitter, all of `k + 1` slots are due. */
  lemma {:induction false} BurstBoundTight(t: Trigger, now: int, k: nat, jitters: seq<int>, interval: int, skew: int)
    requires t.Heartbeat? && Timing(t, interval, skew) && k * interval <= skew
    requires |jitters| == k + 1 && forall i :: 0 <= i < |jitters| ==> jitters[i] == 0
    ensures AllDue(t, now - k * interval, now, jitters)
  {
    if k > 0 {
      assert k * interval == (k - 1) * interval + interval;
      BurstBoundTight(t, now, k - 1, jitters[1..], interval, skew);
    }
  }

  // ---------------------------------------------------------------- the protocol

  function IndexOfSlot(rows: seq<Row>, slot: int): (i: Option<nat>)
    ensures i.Some? ==> i.value < |rows| && rows[i.value].slot == slot
    ensures i.None? ==> forall j :: 0 <= j < |rows| ==> rows[j].slot != slot
  {
    if rows == [] then None
    else if rows[|rows| - 1].slot == slot then Some(|rows| - 1)
    else IndexOfSlot(rows[..|rows| - 1], slot)
  }

  /** The first scheduling of a subscription that has no slot yet. */
  function Schedule(t: Trigger, w: World, now: int, jitter: int): World {
    match t
    case CronTrigger(fires) =>
      var next := NextFire(fires, now);
      if next.None? then w.(nextFireAt := Some(now + FIVE_MINUTES), sawNull := true)
      else w.(nextFireAt := next, first := next)
    case Heartbeat(_, _, _) =>
      if !JitterInRange(t, jitter) then w
      else var next := Some(HeartbeatNext(t, now, jitter)); w.(nextFireAt := next, first := next)
  }

  function Advance(t: Trigger, w: World, now: int, slot: int, jitter: int): World {
    match t
    case CronTrigger(fires) =>
      var next := NextFire(fires, slot);
      w.(pc := Idle, lastTriggeredAt := Some(slot), sawNull := w.sawNull || next.None?,
         nextFireAt := if next.None? then Some(now + FIVE_MINUTES) else next)
    case Heartbeat(_, _, _) =>
      if !JitterInRange(t, jitter) then w
      else w.(pc := Idle, lastTriggeredAt := Some(slot), nextFireAt := Some(AfterFiring(t, slot, now, jitter)))
  }

  /** One atomic step; an action that is not enabled changes nothing. */
  function Apply(t: Trigger, w: World, a: Action): World {
    match (a, w.pc)
    case (Tick(now, jitter), Idle) =>
      if w.nextFireAt.None? then Schedule(t, w, now, jitter)
      else if w.nextFireAt.value > now then w
      else w.(pc := Due(now, w.nextFireAt.value))
    case (InsertOk, Due(now, slot)) =>
      // The unique key makes a second insert for the slot fail as a duplicate, which is not an error.
      if IndexOfSlot(w.rows, slot).Some? then w.(pc := Advancing(now, slot))
      else w.(rows := w.rows + [Row(slot, false)], pc := Inserted(now, slot))
    case (InsertFails, Due(_, _)) => w.(pc := Idle)
    case (QueueOk, Inserted(now, slot)) => w.(pc := Advancing(now, slot))
    case (QueueFails, Inserted(now, slot)) => w.(pc := Compensating(now, slot))
    case (DeleteOk, Compensating(_, slot)) =>
      var i := IndexOfSlot(w.rows, slot);
      if i.Some? && !w.rows[i.value].started
      then w.(rows := w.rows[..i.value] + w.rows[i.value + 1..], pc := Idle)
      else w.(pc := Idle)
    case (DeleteFails, Compensating(_, _)) => w.(pc := Idle)
    case (AdvanceOk(jitter), Advancing(now, slot)) => Advance(t, w, now, slot, jitter)
    case (AdvanceFails, Advancing(_, _)) => w.(pc := Idle)
    case (Crash, _) => w.(pc := Idle)
    case (WorkerStarts(i), _) =>
      if i < |w.rows| then w.(rows := w.rows[i := w.rows[i].(started := true)]) else w
    case _ => w
  }

  function Run(t: Trigger, w: World, actions: seq<Action>): World {
    if actions == [] then w else Apply(t, Run(t, w, actions[..|actions| - 1]), actions[|actions| - 1])
  }

  function Count(rows: seq<Row>, slot: int): nat {
    if rows == [] then 0 else (if rows[0].slot == slot then 1 else 0) + Count(rows[1..], slot)
  }

  /** A run that a worker has started is never taken back, whatever the scheduler does. */
  lemma {:induction false} StartedStays(t: Trigger, w: World, actions: seq<Action>, row: Row)
    requires row in w.rows && row.started
    ensures row in Run(t, w, actions).rows
  {
    if actions != [] {
      var n := |actions| - 1;
      StartedStays(t, w, actions[..n], row);
      StartedKept(t, Run(t, w, actions[..n]), actions[n], row);
    }
  }

  lemma StartedKept(t: Trigger, w: World, a: Action, row: Row)
    requires row in w.rows && row.started
    ensures row in Apply(t, w, a).rows
  {
    hide Schedule;
    hide Advance;
    ScheduleKeepsRows(t, w, a);
    var i :| 0 <= i < |w.rows| && w.rows[i] == row;
    var rows := Apply(t, w, a).rows;
    if a.DeleteOk? && |rows| < |w.rows| {
      var gone := IndexOfSlot(w.rows, w.pc.slot).value;
      assert rows[if i < gone then i else i - 1] == row;
    } else {
      assert rows[i] == row;
    }
  }

  lemma ScheduleKeepsRows(t: Trigger, w: World, a: Action)
    ensures a.Tick? ==> Schedule(t, w, a.now, a.jitter).rows == w.rows
    ensures a.AdvanceOk? && w.pc.Advancing? ==> Advance(t, w, w.pc.now, w.pc.slot, a.jitter).rows == w.rows
  {
    hide NextFire;
  }

  // ---------------------------------------------------------------- cron: no gap, no duplicate

  ghost predicate IsSlot(fires: int -> bool, s: int) {
    s % MINUTE_MS == 0 && fires(s / MINUTE_MS)
  }

  ghost predicate HasRow(rows: seq<Row>, s: int) {
    exists i :: 0 <= i < |rows| && rows[i].slot == s
  }

  ghost predicate DistinctSlots(rows: seq<Row>) {
    forall i, j :: 0 <= i < j < |rows| ==> rows[i].slot != rows[j].slot
  }

  /** The slot the scheduler is working on, if any. */
  ghost predicate PcAt(pc: Pc, n: int) {
    pc.Idle? || (pc.slot == n && pc.slot <= pc.now)
  }

  ghost predicate CronRows(fires: int -> bool, rows: seq<Row>, f: int, n: int) {
    && IsSlot(fires, f) && IsSlot(fires, n) && f <= n && DistinctSlots(rows)
    && (forall i :: 0 <= i < |rows| ==> IsSlot(fires, rows[i].slot) && f <= rows[i].slot <= n)
    && (forall s :: IsSlot(fires, s) && f <= s < n ==> HasRow(rows, s))
  }

  ghost predicate CronInv(fires: int -> bool, w: World) {
    w.sawNull ||
    match w.nextFireAt
    case None => w.rows == [] && w.pc.Idle? && w.first.None?
    case Some(n) =>
      && w.first.Some? && CronRows(fires, w.rows, w.first.value, n) && PcAt(w.pc, n)
      && (w.pc.Inserted? || w.pc.Advancing? ==> HasRow(w.rows, n))
  }

  /** Moving from slot `n` to the next one skips no slot. */
  lemma NextSlot(fires: int -> bool, from: int)
    requires NextFire(fires, from).Some?
    ensures IsSlot(fires, NextFire(fires, from).value) && NextFire(fires, from).value > from
    ensures forall s :: from < s < NextFire(fires, from).value ==> !IsSlot(fires, s)
  {
    NextFireIsEarliest(fires, from);
    forall s | from < s < NextFire(fires, from).value
      ensures !IsSlot(fires, s)
    {
      var m := s / MINUTE_MS;
      if s == m * MINUTE_MS { assert !fires(m); }
    }
  }

  lemma CronInvAdvance(fires: int -> bool, w: World, jitter: int)
    requires CronInv(fires, w) && w.pc.Advancing?
    ensures CronInv(fires, Apply(CronTrigger(fires), w, AdvanceOk(jitter)))
  {
    hide NextFire;
    hide IsSlot;
    if !w.sawNull && NextFire(fires, w.pc.slot).Some? {
      NextSlot(fires, w.pc.slot);
    }
  }

  /** Taking back the row of the current slot leaves the rows of the earlier ones. */
  lemma RowsWithout(rows: seq<Row>, at: nat)
    requires at < |rows|
    ensures var rows' := rows[..at] + rows[at + 1..];
      && (forall i :: 0 <= i < |rows'| ==> rows'[i] == rows[if i < at then i else i + 1])
      && (forall s :: HasRow(rows, s) && s != rows[at].slot ==> HasRow(rows', s))
  {
    var rows' := rows[..at] + rows[at + 1..];
    forall s | HasRow(rows, s) && s != rows[at].slot
      ensures HasRow(rows', s)
    {
      var i :| 0 <= i < |rows| && rows[i].slot == s;
      assert rows'[if i < at then i else i - 1].slot == s;
    }
  }

  lemma RemoveRow(fires: int -> bool, rows: seq<Row>, f: int, n: int, at: nat)
    requires CronRows(fires, rows, f, n) && at < |rows| && rows[at].slot == n
    ensures CronRows(fires, rows[..at] + rows[at + 1..], f, n)
  {
    hide IsSlot;
    hide HasRow;
    RowsWithout(rows, at);
  }

  lemma AddRow(fires: int -> bool, rows: seq<Row>, f: int, n: int)
    requires CronRows(fires, rows, f, n) && forall i :: 0 <= i < |rows| ==> rows[i].slot != n
    ensures CronRows(fires, rows + [Row(n, false)], f, n) && HasRow(rows + [Row(n, false)], n)
  {
    hide IsSlot;
    var rows' := rows + [Row(n, false)];
    assert rows'[|rows|].slot == n;
    RowsKept(rows, rows');
  }

  lemma TouchRow(fires: int -> bool, rows: seq<Row>, f: int, n: int, at: nat)
    requires CronRows(fires, rows, f, n) && at < |rows|
    ensures var rows' := rows[at := rows[at].(started := true)];
      CronRows(fires, rows', f, n) && (HasRow(rows, n) ==> HasRow(rows', n))
  {
    hide IsSlot;
    RowsKept(rows, rows[at := rows[at].(started := true)]);
  }

  lemma CronInvStep(fires: int -> bool, w: World, a: Action)
    requires CronInv(fires, w)
    ensures CronInv(fires, Apply(CronTrigger(fires), w, a))
  {
    hide NextFire;
    hide IndexOfSlot;
    hide CronRows;
    if w.sawNull {
      return;
    }
    match (a, w.pc)
    case (AdvanceOk(jitter), Advancing(_, _)) => CronInvAdvance(fires, w, jitter);
    case (DeleteOk, Compensating(_, slot)) =>
      var at := IndexOfSlot(w.rows, slot);
      if at.Some? { RemoveRow(fires, w.rows, w.first.value, slot, at.value); }
    case (Tick(now, _), Idle) => CronInvTick(fires, w, a);
    case (InsertOk, Due(_, slot)) =>
      var at := IndexOfSlot(w.rows, slot);
      if at.None? { AddRow(fires, w.rows, w.first.value, slot); } else { assert HasRow(w.rows, slot); }
    case (WorkerStarts(at), _) =>
      if at < |w.rows| { TouchRow(fires, w.rows, w.first.value, w.nextFireAt.value, at); }
    case _ =>
  }

  lemma CronInvTick(fires: int -> bool, w: World, a: Action)
    requires CronInv(fires, w) && a.Tick? && w.pc.Idle?
    ensures CronInv(fires, Apply(CronTrigger(fires), w, a))
  {
    hide NextFire;
    hide IsSlot;
    if !w.sawNull && w.nextFireAt.None? && NextFire(fires, a.now).Some? { NextSlot(fires, a.now); }
  }

  /** A row list that keeps each slot at its place keeps every row. */
  lemma RowsKept(before: seq<Row>, after: seq<Row>)
    requires |before| <= |after| && forall i :: 0 <= i < |before| ==> after[i].slot == before[i].slot
    ensures forall s :: HasRow(before, s) ==> HasRow(after, s)
  {
    forall s | HasRow(before, s)
      ensures HasRow(after, s)
    {
      var i :| 0 <= i < |before| && before[i].slot == s;
      assert after[i].slot == s;
    }
  }

  lemma {:induction false} CronInvRun(fires: int -> bool, actions: seq<Action>)
    ensures CronInv(fires, Run(CronTrigger(fires), INITIAL, actions))
  {
    if actions != [] {
      var n := |actions| - 1;
      CronInvRun(fires, actions[..n]);
      CronInvStep(fires, Run(CronTrigger(fires), INITIAL, actions[..n]), actions[n]);
    }
  }

  lemma {:induction false} CountOfDistinct(rows: seq<Row>, s: int)
    requires DistinctSlots(rows)
    ensures Count(rows, s) == if HasRow(rows, s) then 1 else 0
  {
    if rows != [] {
      var rest := rows[1..];
      CountOfDistinct(rest, s);
      assert rows == [rows[0]] + rest;
      if HasRow(rest, s) {
        var i :| 0 <= i < |rest| && rest[i].slot == s;
        assert rows[i + 1].slot == s;
      }
      assert HasRow(rows, s) <==> rows[0].slot == s || HasRow(rest, s);
    }
  }

  /** Over every run: as long as no scan came back empty, the slots before the next one that have a
      run row are exactly the firing minutes from the first slot on, with one row each. */
  lemma {:induction false} NoGapNoDuplicate(fires: int -> bool, actions: seq<Action>, s: int)
    requires var w := Run(CronTrigger(fires), INITIAL, actions);
             !w.sawNull && w.nextFireAt.Some? && s < w.nextFireAt.value
    ensures var w := Run(CronTrigger(fires), INITIAL, actions);
            w.first.Some? && Count(w.rows, s) == if IsSlot(fires, s) && w.first.value <= s then 1 else 0
  {
    CronInvRun(fires, actions);
    var w := Run(CronTrigger(fires), INITIAL, actions);
    CountOfDistinct(w.rows, s);
    if HasRow(w.rows, s) {
      var i :| 0 <= i < |w.rows| && w.rows[i].slot == s;
    }
  }

  /** For an expression whose fields are reachable no scan ever comes back empty, so the guarantee
      holds in every run. */
  lemma {:induction false} ReachableNeverSawNull(p: Parsed, actions: seq<Action>)
    requires ValidCron(p) && AlwaysReachable(p)
    ensures !Run(CronTrigger(Fires(p)), INITIAL, actions).sawNull
  {
    hide AlwaysReachable;
    hide ValidCron;
    hide Fires;
    hide NextFire;
    NeverNullIff(p);
    if actions != [] {
      var n := |actions| - 1;
      ReachableNeverSawNull(p, actions[..n]);
      var w, a := Run(CronTrigger(Fires(p)), INITIAL, actions[..n]), actions[n];
      match (a, w.pc)
      case (AdvanceOk(_), Advancing(_, slot)) => assert NextFire(Fires(p), slot).Some?;
      case (Tick(now, _), Idle) => assert NextFire(Fires(p), now).Some?;
      case _ =>
    }
  }

  // ---------------------------------------------------------------- heartbeat: spaced slots

  ghost predicate Spaced(rows: seq<Row>, gap: int) {
    forall i, j :: 0 <= i < j < |rows| ==> rows[j].slot - rows[i].slot >= gap
  }

  ghost predicate HeartbeatInv(w: World, interval: int) {
    match w.nextFireAt
    case None => w.rows == [] && w.pc.Idle?
    case Some(n) =>
      && Spaced(w.rows, interval) && PcAt(w.pc, n)
      && forall i :: 0 <= i < |w.rows| ==> w.rows[i].slot == n || n - w.rows[i].slot >= interval
  }

  /** In every run, the run rows of a heartbeat subscription have slots at least one interval apart,
      in the order of creation; in particular no slot has two rows. */
  lemma {:induction false} HeartbeatSpaced(t: Trigger, actions: seq<Action>, interval: int, skew: int)
    requires t.Heartbeat? && Timing(t, interval, skew)
    ensures HeartbeatInv(Run(t, INITIAL, actions), interval)
  {
    if actions != [] {
      var n := |actions| - 1;
      HeartbeatSpaced(t, actions[..n], interval, skew);
      HeartbeatInvStep(t, Run(t, INITIAL, actions[..n]), actions[n], interval, skew);
    }
  }

  lemma HeartbeatInvAdvance(t: Trigger, w: World, jitter: int, interval: int, skew: int)
    requires t.Heartbeat? && HeartbeatInv(w, interval) && w.pc.Advancing? && Timing(t, interval, skew)
    ensures HeartbeatInv(Apply(t, w, AdvanceOk(jitter)), interval)
  {
    if JitterInRange(t, jitter) { HeartbeatBounds(t, w.pc.slot, w.pc.now, jitter, interval, skew); }
    hide IntervalMs;
    hide AfterFiring;
  }

  /** A row list that lost a row, or whose rows were touched, is spaced as before. */
  lemma HeartbeatInvRows(t: Trigger, w: World, a: Action, interval: int)
    requires t.Heartbeat? && HeartbeatInv(w, interval) && interval > 0 && (a.DeleteOk? || a.WorkerStarts? || a.InsertOk?)
    ensures HeartbeatInv(Apply(t, w, a), interval)
  {
    hide IntervalMs;
  }

  lemma HeartbeatInvStep(t: Trigger, w: World, a: Action, interval: int, skew: int)
    requires t.Heartbeat? && HeartbeatInv(w, interval) && Timing(t, interval, skew)
    ensures HeartbeatInv(Apply(t, w, a), interval)
  {
    if a.AdvanceOk? && w.pc.Advancing? {
      HeartbeatInvAdvance(t, w, a.jitter, interval, skew);
    } else if a.DeleteOk? || a.WorkerStarts? || a.InsertOk? {
      HeartbeatInvRows(t, w, a, interval);
    } else {
      hide Spaced;
      hide IndexOfSlot;
      hide IntervalMs;
    }
  }

  // ---------------------------------------------------------------- the scheduler itself

  /** What the environment decides during one call: which operations fail, and the random jitter. */
  datatype Env = Env(insertOk: bool, queueOk: bool, deleteOk: bool, advanceOk: bool, jitter: int)

  /** Insert the row, enqueue it, and take it back if it cannot be enqueued. */
  function CreateRun(t: Trigger, w: World, env: Env): World {
    var w2 := Apply(t, w, if env.insertOk then InsertOk else InsertFails);
    var w3 := if !w2.pc.Inserted? then w2 else Apply(t, w2, if env.queueOk then QueueOk else QueueFails);
    if !w3.pc.Compensating? then w3 else Apply(t, w3, if env.deleteOk then DeleteOk else DeleteFails)
  }

  /** One call without a crash, as protocol steps: each answer of the environment picks the next one. */
  function ProcessDue(t: Trigger, w: World, now: int, env: Env): World {
    var w1 := Apply(t, w, Tick(now, env.jitter));
    if !w1.pc.Due? then w1
    else
      var w4 := CreateRun(t, w1, env);
      if !w4.pc.Advancing? then w4 else Apply(t, w4, if env.advanceOk then AdvanceOk(env.jitter) else AdvanceFails)
  }

  /** So every call is part of a run, and what holds of all runs holds of any number of calls. */
  lemma ProcessDueIsRun(t: Trigger, w: World, now: int, env: Env) returns (trace: seq<Action>)
    ensures ProcessDue(t, w, now, env) == Run(t, w, trace)
  {
    hide Apply;
    trace := [];
    var w1 := Apply(t, w, Tick(now, env.jitter));
    trace := RunMore(t, w, trace, Tick(now, env.jitter));
    if w1.pc.Due? {
      trace := RunMore(t, w, trace, if env.insertOk then InsertOk else InsertFails);
      if Run(t, w, trace).pc.Inserted? {
        trace := RunMore(t, w, trace, if env.queueOk then QueueOk else QueueFails);
      }
      if Run(t, w, trace).pc.Compensating? {
        trace := RunMore(t, w, trace, if env.deleteOk then DeleteOk else DeleteFails);
      }
      if Run(t, w, trace).pc.Advancing? {
        trace := RunMore(t, w, trace, if env.advanceOk then AdvanceOk(env.jitter) else AdvanceFails);
      }
    }
  }

  lemma RunMore(t: Trigger, w: World, actions: seq<Action>, a: Action) returns (longer: seq<Action>)
    ensures longer == actions + [a] && Run(t, w, longer) == Apply(t, Run(t, w, actions), a)
  {
    longer := actions + [a];
    assert longer[..|actions|] == actions;
  }

  /** The firing counts: its row is there, or was created and could be enqueued. */
  ghost predicate Taken(rows: seq<Row>, slot: int, env: Env) {
    env.insertOk && (HasRow(rows, slot) || env.queueOk)
  }

  /** What one call does to the rows of a due subscription: a new row for its slot, unless there is one, or
      it could not be inserted, or was taken back because it could not be enqueued. */
  ghost predicate CallRows(before: seq<Row>, slot: int, env: Env, after: seq<Row>) {
    after == before + (if !env.insertOk || HasRow(before, slot) || (!env.queueOk && env.deleteOk) then [] else [Row(slot, false)])
  }

  /** The whole of one call: nothing before the slot is due; then the row, and the schedule moves on exactly
      if the firing counts and the update succeeds. `next` and `start` are the next slot after a firing and
      the first one. */
  ghost predicate CallIs(w: World, now: int, env: Env, after: World, start: int, next: int) {
    match w.nextFireAt
    case None =>
      after.nextFireAt == Some(start) && after.rows == w.rows && after.lastTriggeredAt == w.lastTriggeredAt && after.pc.Idle?
    case Some(slot) =>
      if slot > now then after == w
      else
        && CallRows(w.rows, slot, env, after.rows) && after.pc.Idle?
        && if Taken(w.rows, slot, env) && env.advanceOk
           then after.nextFireAt == Some(next) && after.lastTriggeredAt == Some(slot)
           else after.nextFireAt == w.nextFireAt && after.lastTriggeredAt == w.lastTriggeredAt
  }

  lemma HasRowIff(rows: seq<Row>, slot: int)
    ensures HasRow(rows, slot) <==> IndexOfSlot(rows, slot).Some?
    ensures !HasRow(rows, slot) ==> IndexOfSlot(rows + [Row(slot, false)], slot) == Some(|rows|)
  {
  }

  lemma CreateRunIs(t: Trigger, w: World, now: int, slot: int, env: Env)
    requires w.pc == Due(now, slot)
    ensures var after := CreateRun(t, w, env);
      && CallRows(w.rows, slot, env, after.rows)
      && after == w.(rows := after.rows, pc := if Taken(w.rows, slot, env) then Advancing(now, slot) else Idle)
  {
    HasRowIff(w.rows, slot);
    hide IndexOfSlot;
    hide HasRow;
    var rows := w.rows + [Row(slot, false)];
    assert rows[..|w.rows|] + rows[|w.rows| + 1..] == w.rows;
    assert rows[|w.rows|] == Row(slot, false);
  }

  /** A call of a heartbeat subscription, from its settings. */
  lemma HeartbeatCall(t: Trigger, w: World, now: int, env: Env, interval: int, skew: int)
    requires t.Heartbeat? && w.pc.Idle? && JitterInRange(t, env.jitter) && Timing(t, interval, skew)
    ensures var slot := if w.nextFireAt.Some? then w.nextFireAt.value else now;
      CallIs(w, now, env, ProcessDue(t, w, now, env), now + interval + 1000 * env.jitter,
             (if now - slot > skew then now else slot) + interval + 1000 * env.jitter)
  {
    hide CreateRun;
    hide CallRows;
    hide Taken;
    if w.nextFireAt.Some? && w.nextFireAt.value <= now {
      CreateRunIs(t, w.(pc := Due(now, w.nextFireAt.value)), now, w.nextFireAt.value, env);
    }
  }

  /** The next firing minute after an instant, or five minutes from now where the scan finds none. */
  ghost predicate NextMinute(fires: int -> bool, from: int, now: int, next: int) {
    if NextFire(fires, from).None? then next == now + 300000
    else IsSlot(fires, next) && next > from && forall s :: from < s < next ==> !IsSlot(fires, s)
  }

  lemma NextMinuteIs(fires: int -> bool, from: int, now: int)
    ensures var next := NextFire(fires, from); NextMinute(fires, from, now, if next.None? then now + 300000 else next.value)
  {
    hide NextFire;
    hide IsSlot;
    if NextFire(fires, from).Some? { NextSlot(fires, from); }
  }

  /** A call of a cron subscription: there is a first slot and a next one like this. */
  lemma CronCall(fires: int -> bool, w: World, now: int, env: Env) returns (start: int, next: int)
    requires w.pc.Idle?
    ensures CallIs(w, now, env, ProcessDue(CronTrigger(fires), w, now, env), start, next)
    ensures NextMinute(fires, now, now, start)
    ensures NextMinute(fires, if w.nextFireAt.Some? then w.nextFireAt.value else now, now, next)
  {
    hide NextMinute;
    hide CreateRun;
    hide CallRows;
    hide Taken;
    hide NextFire;
    var slot := if w.nextFireAt.Some? then w.nextFireAt.value else now;
    NextMinuteIs(fires, now, now);
    NextMinuteIs(fires, slot, now);
    start := if NextFire(fires, now).Some? then NextFire(fires, now).value else now + 300000;
    next := if NextFire(fires, slot).Some? then NextFire(fires, slot).value else now + 300000;
    if w.nextFireAt.Some? && slot <= now { CreateRunIs(CronTrigger(fires), w.(pc := Due(now, slot)), now, slot, env); }
  }

  class Scheduler {
    const trigger: Trigger
    var nextFireAt: Option<int>
    var lastTriggeredAt: Option<int>
    var rows: seq<Row>
    ghost var first: Option<int>
    ghost var sawNull: bool

    constructor (trigger: Trigger)
      ensures this.trigger == trigger && State() == INITIAL
    {
      this.trigger := trigger;
      nextFireAt, lastTriggeredAt, rows, first, sawNull := None, None, [], None, false;
    }

    ghost function State(): World
      reads this
    {
      World(nextFireAt, lastTriggeredAt, rows, Idle, first, sawNull)
    }

    method ProcessDueSubscription(now: int, env: Env)
      requires trigger.Heartbeat? ==> JitterInRange(trigger, env.jitter)
      modifies this
      ensures State() == ProcessDue(trigger, old(State()), now, env)
    {
      hide NextFire;
      hide CreateRun;
      if nextFireAt.None? {
        if trigger.CronTrigger? {
          var next := ScanMinutes(trigger.fires, now);
          if next.None? {
            nextFireAt, sawNull := Some(now + FIVE_MINUTES), true;
          } else {
            nextFireAt, first := next, next;
          }
        } else {
          nextFireAt := Some(HeartbeatNext(trigger, now, env.jitter));
          first := nextFireAt;
        }
        return;
      }
      var slot := nextFireAt.value;
      if slot > now {
        return;
      }
      var advance := CreateAndEnqueue(now, slot, env);
      if advance && env.advanceOk {
        AdvanceSchedule(now, slot, env.jitter);
      }
    }

    /** Creating the run row for a due slot and enqueueing it; true when the slot may be advanced. */
    method CreateAndEnqueue(now: int, slot: int, env: Env) returns (advance: bool)
      modifies this`rows
      ensures State().(pc := if advance then Advancing(now, slot) else Idle)
           == CreateRun(trigger, old(State()).(pc := Due(now, slot)), env)
    {
      hide IndexOfSlot;
      if !env.insertOk {
        return false;
      }
      var duplicate := IndexOfSlot(rows, slot);
      if duplicate.Some? {
        return true;
      }
      var before := rows;
      rows := rows + [Row(slot, false)];
      if env.queueOk {
        return true;
      }
      if env.deleteOk {
        assert rows[|before|].slot == slot && forall i :: 0 <= i < |before| ==> rows[i].slot != slot;
        assert IndexOfSlot(rows, slot) == Some(|before|);
        assert rows[..|before|] + rows[|before| + 1..] == before;
        rows := before;
      }
      return false;
    }

    method AdvanceSchedule(now: int, slot: int, jitter: int)
      requires trigger.Heartbeat? ==> JitterInRange(trigger, jitter)
      modifies this`nextFireAt, this`lastTriggeredAt, this`sawNull
      ensures State() == Apply(trigger, old(State()).(pc := Advancing(now, slot)), AdvanceOk(jitter))
    {
      hide NextFire;
      lastTriggeredAt := Some(slot);
      if trigger.CronTrigger? {
        var next := ScanMinutes(trigger.fires, slot);
        sawNull := sawNull || next.None?;
        nextFireAt := if next.None? then Some(now + FIVE_MINUTES) else next;
      } else {
        nextFireAt := Some(AfterFiring(trigger, slot, now, jitter));
      }
    }
  }
}
