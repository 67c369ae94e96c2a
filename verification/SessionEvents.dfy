/** The event log of an agent session (packages/db/src/repositories.ts): appends as transactions that
    check an idempotency key, lock the session row, read the last sequence number and insert; and the
    listings by cursor and from the tail. Statements of different transactions interleave; each sees
    what has been committed (READ COMMITTED). */
module SessionEvents {
  import opened Common
  import Text

  datatype Event = Event(number: nat, key: Option<string>, payload: string)

  type Log = seq<Event>

  datatype Error = SessionNotFound | UniqueViolation | Cancelled

  datatype Result = Appended(event: Event) | Existing(event: Event) | Rejected(error: Error)

  datatype Transaction =
    | Started(key: Option<string>, payload: string)
    | Waiting(key: Option<string>, payload: string)
    | Locked(key: Option<string>, payload: string)
    | Numbered(key: Option<string>, payload: string, number: nat)
    | Inserted(event: Event)
    | Ended(result: Result)

  datatype World = World(log: Log, sessionExists: bool, holder: Option<nat>, transactions: map<nat, Transaction>)

  datatype Action =
    | Begin(t: nat, key: Option<string>, payload: string)
    | CheckKey(t: nat)
    | LockSession(t: nat)
    | ReadLast(t: nat)
    | Insert(t: nat)
    | Commit(t: nat)
    | Cancel(t: nat)

  /** Only a key that is not blank is looked up, but every key is stored. */
  predicate LooksUp(key: Option<string>) {
    key.Some? && Text.Trim(key.value) != ""
  }

  function Find(log: Log, key: Option<string>): (i: Option<nat>)
    ensures i.Some? ==> i.value < |log| && log[i.value].key == key
    ensures i.None? ==> forall j :: 0 <= j < |log| ==> log[j].key != key
  {
    if log == [] then None
    else if log[|log| - 1].key == key then Some(|log| - 1)
    else Find(log[..|log| - 1], key)
  }

  /** One more than the greatest number, or 0. */
  function NextNumber(log: Log): (n: nat)
    ensures forall i :: 0 <= i < |log| ==> log[i].number < n
  {
    if log == [] then 0
    else
      var rest := NextNumber(log[..|log| - 1]);
      if log[|log| - 1].number >= rest then log[|log| - 1].number + 1 else rest
  }

  /** The two unique indexes of the event table. */
  predicate Violates(log: Log, e: Event) {
    (e.key.Some? && Find(log, e.key).Some?) || exists i :: 0 <= i < |log| && log[i].number == e.number
  }

  function End(w: World, t: nat, r: Result): World {
    w.(transactions := w.transactions[t := Ended(r)], holder := if w.holder == Some(t) then None else w.holder)
  }

  function Next(w: World, a: Action): World {
    if a.Begin? then
      if a.t in w.transactions then w else w.(transactions := w.transactions[a.t := Started(a.key, a.payload)])
    else if a.t !in w.transactions then w
    else
      match (a, w.transactions[a.t])
      case (CheckKey(t), Started(key, payload)) =>
        if LooksUp(key) && Find(w.log, key).Some? then End(w, t, Existing(w.log[Find(w.log, key).value]))
        else w.(transactions := w.transactions[t := Waiting(key, payload)])
      case (LockSession(t), Waiting(key, payload)) =>
        if !w.sessionExists then End(w, t, Rejected(SessionNotFound))
        else if w.holder.Some? then w
        else w.(holder := Some(t), transactions := w.transactions[t := Locked(key, payload)])
      case (ReadLast(t), Locked(key, payload)) =>
        w.(transactions := w.transactions[t := Numbered(key, payload, NextNumber(w.log))])
      case (Insert(t), Numbered(key, payload, number)) =>
        var e := Event(number, key, payload);
        if Violates(w.log, e) then End(w, t, Rejected(UniqueViolation))
        else w.(transactions := w.transactions[t := Inserted(e)])
      case (Commit(t), Inserted(e)) => End(w.(log := w.log + [e]), t, Appended(e))
      case (Cancel(t), Ended(_)) => w
      case (Cancel(t), _) => End(w, t, Rejected(Cancelled))
      case _ => w
  }

  function Run(w: World, actions: seq<Action>): World {
    if actions == [] then w else Next(Run(w, actions[..|actions| - 1]), actions[|actions| - 1])
  }

  function Initial(sessionExists: bool): World {
    World([], sessionExists, None, map[])
  }

  // ---------------------------------------------------------------- numbering

  /** Numbers are exactly 0, 1, ..., n - 1, in order, and no key occurs twice. */
  ghost predicate WellNumbered(log: Log) {
    && (forall i :: 0 <= i < |log| ==> log[i].number == i)
    && (forall i, j :: 0 <= i < j < |log| && log[i].key.Some? ==> log[i].key != log[j].key)
  }

  predicate HoldsLock(x: Transaction) {
    x.Locked? || x.Numbered? || x.Inserted?
  }

  ghost predicate Inv(w: World) {
    && WellNumbered(w.log)
    && (forall t :: t in w.transactions && HoldsLock(w.transactions[t]) ==> w.holder == Some(t))
    && (forall t :: t in w.transactions && w.transactions[t].Numbered? ==> w.transactions[t].number == |w.log|)
    && (forall t :: t in w.transactions && w.transactions[t].Inserted? ==>
          w.transactions[t].event.number == |w.log| && WellNumbered(w.log + [w.transactions[t].event]))
  }

  lemma {:induction false} NextNumberIsLength(log: Log)
    requires forall i :: 0 <= i < |log| ==> log[i].number == i
    ensures NextNumber(log) == |log|
  {
    if log != [] {
      NextNumberIsLength(log[..|log| - 1]);
    }
  }

  lemma InsertIsNumbered(log: Log, e: Event)
    requires WellNumbered(log) && e.number == |log| && !Violates(log, e)
    ensures WellNumbered(log + [e])
  {
  }

  lemma StepKeeps(w: World, a: Action)
    requires Inv(w)
    ensures Inv(Next(w, a))
  {
    hide Find;
    hide NextNumber;
    hide LooksUp;
    hide Violates;
    hide WellNumbered;
    if !a.Begin? && a.t in w.transactions {
      match (a, w.transactions[a.t])
      case (ReadLast(t), Locked(key, payload)) => NumbersOf(w.log); NextNumberIsLength(w.log);
      case (Insert(t), Numbered(key, payload, number)) =>
        if !Violates(w.log, Event(number, key, payload)) { InsertIsNumbered(w.log, Event(number, key, payload)); }
      case _ =>
    }
  }

  lemma NumbersOf(log: Log)
    requires WellNumbered(log)
    ensures forall i :: 0 <= i < |log| ==> log[i].number == i
  {
  }

  /** For any interleaving of append transactions, failures included, the numbers of the session are
      exactly 0..n-1 and every idempotency key has at most one event. */
  lemma {:induction false} NumbersHaveNoGap(sessionExists: bool, actions: seq<Action>)
    ensures Inv(Run(Initial(sessionExists), actions))
  {
    if actions != [] {
      NumbersHaveNoGap(sessionExists, actions[..|actions| - 1]);
      StepKeeps(Run(Initial(sessionExists), actions[..|actions| - 1]), actions[|actions| - 1]);
    }
  }

  /** A session that does not exist gets no events: every append that ends is rejected. */
  lemma {:induction false} NoSessionNoEvents(actions: seq<Action>)
    ensures var w := Run(Initial(false), actions);
      && !w.sessionExists && w.log == []
      && forall t :: t in w.transactions ==>
           !HoldsLock(w.transactions[t]) && (w.transactions[t].Ended? ==> w.transactions[t].result.Rejected?)
  {
    if actions != [] {
      NoSessionNoEvents(actions[..|actions| - 1]);
    }
  }

  /** Some append was begun with this key and payload. */
  ghost predicate Asked(actions: seq<Action>, key: Option<string>, payload: string) {
    exists i, t :: 0 <= i < |actions| && actions[i] == Begin(t, key, payload)
  }

  /** A transaction carries what it was begun with, and its answer is an event on record. */
  ghost predicate CarriedBy(actions: seq<Action>, log: Log, x: Transaction) {
    match x
    case Started(key, payload) => Asked(actions, key, payload)
    case Waiting(key, payload) => Asked(actions, key, payload)
    case Locked(key, payload) => Asked(actions, key, payload)
    case Numbered(key, payload, _) => Asked(actions, key, payload)
    case Inserted(e) => Asked(actions, e.key, e.payload)
    case Ended(Appended(e)) => e in log
    case Ended(Existing(e)) => e in log
    case Ended(Rejected(_)) => true
  }

  ghost predicate Carried(actions: seq<Action>, w: World) {
    && (forall i :: 0 <= i < |w.log| ==> Asked(actions, w.log[i].key, w.log[i].payload))
    && (forall t :: t in w.transactions ==> CarriedBy(actions, w.log, w.transactions[t]))
  }

  lemma AskedOn(actions: seq<Action>, a: Action)
    ensures forall key, payload :: Asked(actions, key, payload) ==> Asked(actions + [a], key, payload)
    ensures a.Begin? ==> Asked(actions + [a], a.key, a.payload)
  {
    var more := actions + [a];
    forall key, payload | Asked(actions, key, payload)
      ensures Asked(more, key, payload)
    {
      var i, t :| 0 <= i < |actions| && actions[i] == Begin(t, key, payload);
      assert more[i] == Begin(t, key, payload);
    }
    if a.Begin? { assert more[|actions|] == Begin(a.t, a.key, a.payload); }
  }

  lemma StillCarried(actions: seq<Action>, a: Action, log: Log, longer: Log, x: Transaction)
    requires CarriedBy(actions, log, x) && log <= longer
    ensures CarriedBy(actions + [a], longer, x)
  {
    AskedOn(actions, a);
    hide Asked;
    assert forall e :: e in log ==> e in longer;
  }

  /** The transaction that acts. */
  lemma ActorCarried(actions: seq<Action>, w: World, a: Action)
    requires Carried(actions, w) && a.t in Next(w, a).transactions
    ensures CarriedBy(actions + [a], Next(w, a).log, Next(w, a).transactions[a.t])
    ensures forall i :: |w.log| <= i < |Next(w, a).log| ==> Asked(actions + [a], Next(w, a).log[i].key, Next(w, a).log[i].payload)
  {
    AskedOn(actions, a);
    hide Asked;
    hide LooksUp;
    hide Violates;
    hide NextNumber;
    if a.t in w.transactions { assert CarriedBy(actions, w.log, w.transactions[a.t]); }
  }

  lemma OthersStay(w: World, a: Action)
    ensures w.log <= Next(w, a).log
    ensures forall t :: t != a.t ==> (t in Next(w, a).transactions <==> t in w.transactions)
    ensures forall t :: t != a.t && t in w.transactions ==> Next(w, a).transactions[t] == w.transactions[t]
  {
    hide LooksUp;
    hide Violates;
    hide NextNumber;
    hide Find;
  }

  lemma CarriedOn(actions: seq<Action>, w: World, a: Action)
    requires Carried(actions, w)
    ensures Carried(actions + [a], Next(w, a))
  {
    hide Next;
    hide CarriedBy;
    OthersStay(w, a);
    AskedOn(actions, a);
    hide Asked;
    var next := Next(w, a);
    if a.t in next.transactions { ActorCarried(actions, w, a); } else { NobodyActs(w, a); }
    forall t | t in next.transactions
      ensures CarriedBy(actions + [a], next.log, next.transactions[t])
    {
      if t != a.t { StillCarried(actions, a, w.log, next.log, w.transactions[t]); }
    }
  }

  lemma NobodyActs(w: World, a: Action)
    requires a.t !in Next(w, a).transactions
    ensures Next(w, a).log == w.log
  {
  }

  /** In any interleaving every event on record has the key and the payload that some append was begun with,
      and every append that is answered with an event is answered with one on record. */
  lemma {:induction false} EventsWereAsked(sessionExists: bool, actions: seq<Action>)
    ensures Carried(actions, Run(Initial(sessionExists), actions))
  {
    hide Next;
    hide Carried;
    if actions != [] {
      var n := |actions| - 1;
      EventsWereAsked(sessionExists, actions[..n]);
      CarriedOn(actions[..n], Run(Initial(sessionExists), actions[..n]), actions[n]);
      assert actions[..n] + [actions[n]] == actions;
    } else {
      NothingCarried(sessionExists);
    }
  }

  lemma NothingCarried(sessionExists: bool)
    ensures Carried([], Initial(sessionExists))
  {
  }

  /** An event that has been committed stays, at its place. */
  lemma {:induction false} LogOnlyGrows(w: World, actions: seq<Action>)
    ensures w.log <= Run(w, actions).log
  {
    if actions != [] {
      LogOnlyGrows(w, actions[..|actions| - 1]);
    }
  }

  // ---------------------------------------------------------------- appends that do not overlap

  /** A transaction that runs alone. */
  function Append(log: Log, key: Option<string>, payload: string): (Log, Result) {
    if LooksUp(key) && Find(log, key).Some? then (log, Existing(log[Find(log, key).value]))
    else
      var e := Event(NextNumber(log), key, payload);
      if Violates(log, e) then (log, Rejected(UniqueViolation)) else (log + [e], Appended(e))
  }

  /** It is what the steps of a transaction amount to when nobody else holds the session. */
  lemma {:induction false} AloneIsAppend(w: World, t: nat, key: Option<string>, payload: string)
    requires w.sessionExists && w.holder.None? && t !in w.transactions
    ensures var end := Run(w, [Begin(t, key, payload), CheckKey(t), LockSession(t), ReadLast(t), Insert(t), Commit(t)]);
      && end.log == Append(w.log, key, payload).0 && end.holder.None?
      && end.transactions == w.transactions[t := Ended(Append(w.log, key, payload).1)]
  {
    hide Next;
    hide LooksUp;
    hide Find;
    hide NextNumber;
    hide Violates;
    var steps := [Begin(t, key, payload), CheckKey(t), LockSession(t), ReadLast(t), Insert(t), Commit(t)];
    RunStep(w, steps, 0);
    RunStep(w, steps, 1);
    RunStep(w, steps, 2);
    RunStep(w, steps, 3);
    RunStep(w, steps, 4);
    RunStep(w, steps, 5);
    assert steps[..0] == [] && steps[..6] == steps;
    AloneBegins(w, t, key, payload);
    var w2 := Run(w, steps[..2]);
    if w2.transactions[t].Ended? { EndedStands(w2, t); } else { AloneGoesOn(w2, t, key, payload); }
  }

  lemma {:induction false} AloneBegins(w: World, t: nat, key: Option<string>, payload: string)
    requires t !in w.transactions && w.holder.None?
    ensures var w2 := Next(Next(w, Begin(t, key, payload)), CheckKey(t));
      w2 == w.(transactions := w.transactions[t :=
        if LooksUp(key) && Find(w.log, key).Some? then Ended(Existing(w.log[Find(w.log, key).value])) else Waiting(key, payload)])
  {
    hide LooksUp;
    hide Find;
    var w1 := Next(w, Begin(t, key, payload));
    assert w1 == w.(transactions := w.transactions[t := Started(key, payload)]);
    assert w1.transactions[t] == Started(key, payload);
  }

  lemma EndedStands(w: World, t: nat)
    requires t in w.transactions && w.transactions[t].Ended?
    ensures Next(w, LockSession(t)) == w && Next(w, ReadLast(t)) == w && Next(w, Insert(t)) == w && Next(w, Commit(t)) == w
  {
  }

  lemma AloneGoesOn(w: World, t: nat, key: Option<string>, payload: string)
    requires w.sessionExists && w.holder.None? && t in w.transactions && w.transactions[t] == Waiting(key, payload)
    ensures var e := Event(NextNumber(w.log), key, payload);
      var w4 := Next(Next(w, LockSession(t)), ReadLast(t));
      Next(Next(w4, Insert(t)), Commit(t)) ==
        if Violates(w.log, e) then w.(transactions := w.transactions[t := Ended(Rejected(UniqueViolation))])
        else w.(log := w.log + [e], transactions := w.transactions[t := Ended(Appended(e))])
  {
    hide NextNumber;
    hide Violates;
    var e := Event(NextNumber(w.log), key, payload);
    var w3 := Next(w, LockSession(t));
    assert w3 == w.(holder := Some(t), transactions := w.transactions[t := Locked(key, payload)]);
    var w4 := Next(w3, ReadLast(t));
    assert w4 == w.(holder := Some(t), transactions := w.transactions[t := Numbered(key, payload, e.number)]);
    AloneInserts(w4, t, e);
  }

  lemma AloneInserts(w: World, t: nat, e: Event)
    requires w.holder == Some(t) && t in w.transactions && w.transactions[t] == Numbered(e.key, e.payload, e.number)
    ensures Next(Next(w, Insert(t)), Commit(t)) ==
      if Violates(w.log, e) then w.(holder := None, transactions := w.transactions[t := Ended(Rejected(UniqueViolation))])
      else w.(holder := None, log := w.log + [e], transactions := w.transactions[t := Ended(Appended(e))])
  {
    hide Violates;
  }

  lemma {:induction false} RunStep(w: World, actions: seq<Action>, i: nat)
    requires i < |actions|
    ensures Run(w, actions[..i + 1]) == Next(Run(w, actions[..i]), actions[i])
  {
    hide Next;
    assert actions[..i + 1][..i] == actions[..i];
  }

  /** Appending twice with one key adds one event. A key that is not blank gets the first event back; a
      blank one is refused by the unique index although it is never looked up; without a key the second
      append adds a second event. */
  lemma AppendTwice(log: Log, key: Option<string>, p1: string, p2: string, more: Log)
    requires WellNumbered(log) && Append(log, key, p1).1.Appended?
    requires Append(log, key, p1).0 <= more && WellNumbered(more)
    ensures var e, again := Append(log, key, p1).1.event, Append(more, key, p2);
      && (again.1 == Existing(e) && again.0 == more <==> key.Some? && !Text.Blank(key.value))
      && (again.1 == Rejected(UniqueViolation) && again.0 == more <==> key.Some? && Text.Blank(key.value))
      && (again.1.Appended? <==> key.None?)
  {
    hide Text.Trim;
    hide NextNumber;
    hide Find;
    var e := Append(log, key, p1).1.event;
    assert more[|log|] == e;
    NoKeyNoViolation(more, p2);
    if key.Some? { Text.TrimBlank(key.value); }
    hide Text.Blank;
    if key.Some? { assert Find(more, key) == Some(|log|); }
  }

  lemma {:induction false} NoKeyNoViolation(log: Log, payload: string)
    requires WellNumbered(log)
    ensures !Violates(log, Event(NextNumber(log), None, payload))
  {
    NextNumberIsLength(log);
  }

  // ---------------------------------------------------------------- listings

  function Clamp(limit: int): (n: nat)
    ensures 1 <= n <= 500
  {
    Max(1, Min(500, limit))
  }

  /** How many events a page may hold: as many as asked for, within 1 and 500. */
  predicate PageSize(limit: int, n: nat) {
    && 1 <= n <= 500
    && (n < limit ==> n == 500)
    && (n > limit ==> n == 1)
  }

  lemma ClampIsPageSize(limit: int, n: nat)
    ensures PageSize(limit, n) <==> n == Clamp(limit)
  {
  }

  /** The events with a number above the cursor, in order. */
  function After(log: Log, cursor: Option<int>): Log {
    if log == [] then []
    else
      var rest, last := After(log[..|log| - 1], cursor), log[|log| - 1];
      if cursor.None? || last.number > cursor.value then rest + [last] else rest
  }

  datatype Page = Page(events: Log, nextCursor: Option<int>)

  function ListEvents(log: Log, limit: int, cursor: Option<int>): Page {
    var rows := After(log, cursor);
    var n := Clamp(limit);
    // One row more than asked for is fetched to see whether there is another page.
    var fetched := if |rows| > n + 1 then rows[..n + 1] else rows;
    var events := if |fetched| > n then fetched[..n] else fetched;
    Page(events, if |fetched| > n then Some(events[|events| - 1].number) else None)
  }

  function Reverse(log: Log): (r: Log)
    ensures |r| == |log| && forall i :: 0 <= i < |log| ==> r[i] == log[|log| - 1 - i]
  {
    if log == [] then [] else [log[|log| - 1]] + Reverse(log[..|log| - 1])
  }

  /** The tail query: newest first, cut off, turned round. */
  function ListTail(log: Log, limit: int): Log {
    var newest := Reverse(log);
    Reverse(if |newest| > Clamp(limit) then newest[..Clamp(limit)] else newest)
  }

  /** The first number that the cursor lets through. */
  function FirstAfter(cursor: Option<int>): int {
    if cursor.None? then 0 else cursor.value + 1
  }

  /** One event more. */
  lemma AfterSnoc(log: Log, cursor: Option<int>)
    requires log != []
    ensures var before, last := log[..|log| - 1], log[|log| - 1];
      After(log, cursor) == if last.number >= FirstAfter(cursor) || cursor.None? then After(before, cursor) + [last] else After(before, cursor)
  {
  }

  ghost predicate InOrder(log: Log) {
    forall i :: 0 <= i < |log| ==> log[i].number == i
  }

  lemma InOrderPrefix(log: Log)
    requires InOrder(log) && log != []
    ensures InOrder(log[..|log| - 1]) && log[|log| - 1].number == |log| - 1
  {
  }

  lemma {:induction false} NothingAfter(log: Log, cursor: Option<int>)
    requires InOrder(log) && FirstAfter(cursor) >= |log|
    ensures After(log, cursor) == []
  {
    if log != [] {
      AfterSnoc(log, cursor);
      InOrderPrefix(log);
      hide After;
      hide InOrder;
      NothingAfter(log[..|log| - 1], cursor);
    }
  }

  lemma {:induction false} SuffixAfter(log: Log, cursor: Option<int>)
    requires InOrder(log) && 0 <= FirstAfter(cursor) <= |log|
    ensures After(log, cursor) == log[FirstAfter(cursor)..]
  {
    hide After;
    hide InOrder;
    var n, k := |log| - 1, FirstAfter(cursor);
    if k == |log| {
      NothingAfter(log, cursor);
    } else {
      AfterSnoc(log, cursor);
      InOrderPrefix(log);
      SuffixAfter(log[..n], cursor);
      assert log[..n][k..] == log[k..n];
      assert log[k..n] + [log[n]] == log[k..];
    }
  }

  lemma {:induction false} AfterIsSuffix(log: Log, cursor: Option<int>)
    requires InOrder(log) && 0 <= FirstAfter(cursor)
    ensures After(log, cursor) == if FirstAfter(cursor) <= |log| then log[FirstAfter(cursor)..] else []
  {
    hide After;
    if FirstAfter(cursor) <= |log| { SuffixAfter(log, cursor); } else { NothingAfter(log, cursor); }
  }

  /** What a client has after each of its requests, one per log it finds: the events received so far and
      the cursor to go on with; None once a page came without one. */
  datatype Reader = Reader(received: Log, cursor: Option<int>, finished: bool)

  function Read(logs: seq<Log>, limit: int): Reader {
    if logs == [] then Reader([], None, false)
    else
      var before := Read(logs[..|logs| - 1], limit);
      if before.finished then before
      else
        var page := ListEvents(logs[|logs| - 1], limit, before.cursor);
        Reader(before.received + page.events, page.nextCursor, page.nextCursor.None?)
  }

  ghost predicate Growing(logs: seq<Log>) {
    && (forall i :: 0 <= i < |logs| ==> forall k :: 0 <= k < |logs[i]| ==> logs[i][k].number == k)
    && (forall i :: 0 < i < |logs| ==> logs[i - 1] <= logs[i])
  }

  /** The page after the first `k` events starts with event `k` and holds as many as there are, up to its
      size. */
  lemma PageAt(log: Log, limit: int, n: nat, k: nat)
    requires (forall i :: 0 <= i < |log| ==> log[i].number == i) && k <= |log| && PageSize(limit, n)
    ensures var page := ListEvents(log, limit, if k == 0 then None else Some(k - 1));
      var m := k + |page.events|;
      && m == (if k + n < |log| then k + n else |log|) && page.events == log[k..m]
      && page.nextCursor == (if m < |log| then Some(m - 1) else None)
  {
    hide After;
    ClampIsPageSize(limit, n);
    AfterIsSuffix(log, if k == 0 then None else Some(k - 1));
  }

  /** One more request: the reader had the first `k` events of the log. */
  lemma OnePageMore(before: Reader, log: Log, limit: int, n: nat, k: nat)
    requires InOrder(log) && k <= |log| && PageSize(limit, n)
    requires before == Reader(log[..k], if k == 0 then None else Some(k - 1), false)
    ensures var page := ListEvents(log, limit, before.cursor);
      var r := Reader(before.received + page.events, page.nextCursor, page.nextCursor.None?);
      r == if k + n < |log| then Reader(log[..k + n], Some(k + n - 1), false) else Reader(log, None, true)
  {
    hide ListEvents;
    PageAt(log, limit, n, k);
    var m := if k + n < |log| then k + n else |log|;
    assert log[..k] + log[k..m] == log[..m];
    assert log[..|log|] == log;
  }

  lemma PageTimes(n: nat, j: nat)
    requires n >= 1
    ensures n * (j + 1) == n * j + n && (n * j == 0 <==> j == 0)
  {
  }

  /** Following the cursor while events keep being appended: the events received are always a prefix of
      the log, each exactly once and in order, a reader that has not finished has got a full page per
      request and there is more, and one that has finished had everything. */
  lemma {:induction false} PagesCoverLog(logs: seq<Log>, limit: int, n: nat)
    requires Growing(logs) && logs != [] && PageSize(limit, n)
    ensures var r, log := Read(logs, limit), logs[|logs| - 1];
      && r.received <= log
      && (!r.finished ==> |r.received| == n * |logs| < |log| && r.cursor == Some(|r.received| - 1))
      && (r.finished ==> r.received in logs)
  {
    hide ListEvents;
    var last := |logs| - 1;
    PageTimes(n, last);
    hide PageSize;
    var before, log := Read(logs[..last], limit), logs[last];
    if last > 0 {
      PagesCoverLog(logs[..last], limit, n);
      assert logs[last - 1] <= log;
    }
    if !before.finished {
      var k := |before.received|;
      assert k == n * last;
      assert before.received == log[..k];
      OnePageMore(before, log, limit, n, k);
    }
  }

  /** On a log that stands still the pages together are the log, and the cursor ends with null, after as many
      requests as it takes full pages to hold the log. */
  lemma {:induction false} PagesOfFixedLog(log: Log, limit: int, n: nat, logs: seq<Log>)
    requires InOrder(log) && PageSize(limit, n)
    requires logs != [] && forall i :: 0 <= i < |logs| ==> logs[i] == log
    ensures Read(logs, limit) == Reader(log, None, true) <==> n * |logs| >= |log|
  {
    hide ListEvents;
    PagesCoverLog(logs, limit, n);
    FinishedHasNoCursor(logs, limit);
    if n * |logs| < |log| { NotBefore(log, limit, n, logs); }
  }

  lemma {:induction false} NotBefore(log: Log, limit: int, n: nat, logs: seq<Log>)
    requires InOrder(log) && PageSize(limit, n) && forall i :: 0 <= i < |logs| ==> logs[i] == log
    requires n * |logs| < |log|
    ensures var k := n * |logs|; Read(logs, limit) == Reader(log[..k], if k == 0 then None else Some(k - 1), false)
  {
    hide ListEvents;
    hide InOrder;
    if logs == [] {
      assert log[..0] == [];
    } else {
      var last := |logs| - 1;
      PageTimes(n, last);
      hide PageSize;
      NotBefore(log, limit, n, logs[..last]);
      OnePageMore(Read(logs[..last], limit), log, limit, n, n * last);
    }
  }

  lemma {:induction false} FinishedHasNoCursor(logs: seq<Log>, limit: int)
    ensures Read(logs, limit).finished ==> Read(logs, limit).cursor.None?
  {
    if logs != [] { FinishedHasNoCursor(logs[..|logs| - 1], limit); }
  }

  lemma {:induction false} ReversedPrefix(log: Log, m: nat)
    requires m <= |log|
    ensures Reverse(Reverse(log)[..m]) == log[|log| - m..]
  {
    hide Reverse;
    var r := Reverse(Reverse(log)[..m]);
    forall i | 0 <= i < m
      ensures r[i] == log[|log| - m..][i]
    {
      assert r[i] == Reverse(log)[..m][m - 1 - i];
    }
  }

  /** The tail query gives the last events, a page of them, oldest first. */
  lemma TailIsLast(log: Log, limit: int, n: nat)
    requires PageSize(limit, n)
    ensures ListTail(log, limit) == if n < |log| then log[|log| - n..] else log
  {
    hide Reverse;
    ClampIsPageSize(limit, n);
    hide Clamp;
    ReversedPrefix(log, if n < |log| then n else |log|);
    assert Reverse(log)[..|log|] == Reverse(log);
  }

  class EventLog {
    var events: Log

    constructor ()
      ensures events == []
    {
      events := [];
    }

    method AppendEvent(key: Option<string>, payload: string) returns (result: Result)
      modifies this
      ensures (events, result) == Append(old(events), key, payload)
      ensures result.Appended? ==> events == old(events) + [result.event] && result.event.key == key && result.event.payload == payload
      ensures result.Existing? ==> events == old(events) && result.event in events && result.event.key == key
      ensures result.Rejected? ==> events == old(events) && result == Rejected(UniqueViolation)
      ensures old(WellNumbered(events)) ==> WellNumbered(events)
    {
      if LooksUp(key) {
        var existing := Find(events, key);
        if existing.Some? {
          return Existing(events[existing.value]);
        }
      }
      var e := Event(NextNumber(events), key, payload);
      if Violates(events, e) {
        return Rejected(UniqueViolation);
      }
      assert WellNumbered(events) ==> WellNumbered(events + [e]) by {
        if WellNumbered(events) {
          NextNumberIsLength(events);
          InsertIsNumbered(events, e);
        }
      }
      events := events + [e];
      return Appended(e);
    }
  }
}
