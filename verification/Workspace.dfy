/** Execution workspaces (packages/db/src/repositories.ts): a lease with an expiry, and a version that is
    committed by compare-and-set. The commit does not look at the lease. */
module Workspace {
  import opened Common

  datatype Row = Row(version: int, objectKey: string, etag: Option<string>, lockToken: Option<string>, lockExpiresAt: Option<int>)

  /** Granted when nobody holds the lease or it has run out. */
  predicate LockFree(row: Row, now: int) {
    row.lockExpiresAt.None? || row.lockExpiresAt.value < now
  }

  function TryLock(row: Row, token: string, ttlSec: int, now: int): Row {
    if LockFree(row, now) then row.(lockToken := Some(token), lockExpiresAt := Some(now + Max(1, ttlSec) * 1000)) else row
  }

  function Release(row: Row, token: string): Row {
    if row.lockToken == Some(token) then row.(lockToken := None, lockExpiresAt := None) else row
  }

  function Commit(row: Row, expected: int, key: string, etag: Option<string>): Row {
    if row.version == expected then Row(expected + 1, key, etag, None, None) else row
  }

  datatype Action =
    | Tick(ms: nat)
    | Lock(token: string, ttlSec: int)
    | Unlock(token: string)
    | Save(expected: int, key: string, etag: Option<string>)

  /** A commit that took effect. */
  datatype Saved = Saved(expected: int, key: string)

  /** `saves` is the history of the commits that took effect. */
  datatype World = World(row: Row, now: int, saves: seq<Saved>)

  function Next(w: World, a: Action): World {
    match a
    case Tick(ms) => w.(now := w.now + ms)
    case Lock(token, ttlSec) => w.(row := TryLock(w.row, token, ttlSec, w.now))
    case Unlock(token) => w.(row := Release(w.row, token))
    case Save(expected, key, etag) =>
      w.(row := Commit(w.row, expected, key, etag),
         saves := if w.row.version == expected then w.saves + [Saved(expected, key)] else w.saves)
  }

  function Run(w: World, actions: seq<Action>): World {
    if actions == [] then w else Next(Run(w, actions[..|actions| - 1]), actions[|actions| - 1])
  }

  /** Under any interleaving each commit that took effect was made against the version that the one
      before it produced: versions go up one by one, none has two successors, no update is lost, and the
      object on record is the last one committed. */
  lemma {:induction false} NoLostUpdate(row: Row, now: int, actions: seq<Action>)
    ensures var w := Run(World(row, now, []), actions);
      && w.row.version == row.version + |w.saves|
      && (forall i :: 0 <= i < |w.saves| ==> w.saves[i].expected == row.version + i)
      && w.row.objectKey == if w.saves == [] then row.objectKey else w.saves[|w.saves| - 1].key
  {
    if actions != [] {
      NoLostUpdate(row, now, actions[..|actions| - 1]);
    }
  }

  lemma {:induction false} VersionGrows(w: World, actions: seq<Action>)
    ensures Run(w, actions).row.version >= w.row.version
  {
    if actions != [] {
      VersionGrows(w, actions[..|actions| - 1]);
    }
  }

  /** A client whose version has been overtaken can never commit it, whatever happens in between. */
  lemma {:induction false} StaleNeverCommits(w: World, actions: seq<Action>, expected: int, key: string, etag: Option<string>)
    requires expected < w.row.version
    ensures Next(Run(w, actions), Save(expected, key, etag)) == Run(w, actions)
  {
    VersionGrows(w, actions);
  }

  lemma {:induction false} VersionCountsSaves(w: World, actions: seq<Action>)
    ensures w.saves <= Run(w, actions).saves && Run(w, actions).row.version == w.row.version + |Run(w, actions).saves| - |w.saves|
  {
    if actions != [] {
      VersionCountsSaves(w, actions[..|actions| - 1]);
    }
  }

  /** A client that has read the version, as the gateway does before it takes the lease, and commits after
      any interleaving of the others: its commit takes effect if and only if no other one did in between. */
  lemma {:induction false} CommitSucceedsIff(w: World, actions: seq<Action>, key: string, etag: Option<string>)
    ensures var before := Run(w, actions);
      Next(before, Save(w.row.version, key, etag)).saves == before.saves + [Saved(w.row.version, key)] <==> before.saves == w.saves
  {
    VersionCountsSaves(w, actions);
    var before := Run(w, actions);
    if before.row.version != w.row.version {
      assert |before.saves| != |w.saves|;
    }
  }

  /** The lease excludes others until it is given back, a commit clears it, or it expires. */
  lemma {:induction false} LeaseExcludes(w: World, actions: seq<Action>, token: string, expires: int)
    requires w.row.lockToken == Some(token) && w.row.lockExpiresAt == Some(expires)
    requires Unlock(token) !in actions && forall a :: a in actions ==> !a.Save?
    requires Run(w, actions).now <= expires
    ensures Run(w, actions).row == w.row
  {
    if actions != [] {
      var n := |actions| - 1;
      assert actions == actions[..n] + [actions[n]];
      assert actions[n] in actions;
      assert Run(w, actions[..n]).now <= Run(w, actions).now;
      LeaseExcludes(w, actions[..n], token, expires);
    }
  }

  lemma {:induction false} TicksKeepRow(w: World, actions: seq<Action>)
    requires forall a :: a in actions ==> a.Tick?
    ensures Run(w, actions).row == w.row && Run(w, actions).now >= w.now
  {
    if actions != [] {
      var n := |actions| - 1;
      assert actions == actions[..n] + [actions[n]];
      assert actions[n] in actions;
      TicksKeepRow(w, actions[..n]);
    }
  }

  /** A lease that has been taken is for as many seconds as asked for, and at least one: while time goes by,
      another client gets it exactly when more than that has passed. */
  lemma {:induction false} LeaseLastsIff(w: World, token: string, ttlSec: int, time: seq<Action>, other: string, ttl2: int)
    requires (w.row.lockExpiresAt.None? || w.row.lockExpiresAt.value < w.now) && other != token
    requires forall a :: a in time ==> a.Tick?
    ensures var held := Next(w, Lock(token, ttlSec));
      var after := Run(held, time);
      && held.row.lockToken == Some(token) && held.now == w.now && held.row == w.row.(lockToken := Some(token), lockExpiresAt := held.row.lockExpiresAt)
      && (Next(after, Lock(other, ttl2)).row.lockToken == Some(other) <==> after.now - w.now > 1000 * (if ttlSec < 1 then 1 else ttlSec))
      && (Next(after, Lock(other, ttl2)).row.lockToken != Some(other) ==> Next(after, Lock(other, ttl2)) == after)
  {
    TicksKeepRow(Next(w, Lock(token, ttlSec)), time);
  }

  /** A client without the lease can commit and thereby clears the holder's lease; but then the holder's
      own commit of the same version is refused, so the race costs work, never an update. */
  lemma {:induction false} CommitIgnoresLease(w: World, other: string, key: string, etag: Option<string>, actions: seq<Action>)
    ensures var stolen := Next(w, Save(w.row.version, other, None));
      && stolen.row.objectKey == other && stolen.row.lockToken.None? && stolen.row.lockExpiresAt.None?
      && Next(Run(stolen, actions), Save(w.row.version, key, etag)).row == Run(stolen, actions).row
  {
    StaleNeverCommits(Next(w, Save(w.row.version, other, None)), actions, w.row.version, key, etag);
  }

  class ExecutionWorkspace {
    var currentVersion: int
    var currentObjectKey: string
    var currentEtag: Option<string>
    var lockToken: Option<string>
    var lockExpiresAt: Option<int>

    function Value(): Row
      reads this
    {
      Row(currentVersion, currentObjectKey, currentEtag, lockToken, lockExpiresAt)
    }

    constructor (key: string)
      ensures Value() == Row(0, key, None, None, None)
    {
      currentVersion, currentObjectKey, currentEtag, lockToken, lockExpiresAt := 0, key, None, None, None;
    }

    method TryLockWorkspace(token: string, ttlSec: int, now: int) returns (locked: bool)
      modifies this`lockToken, this`lockExpiresAt
      ensures Value() == TryLock(old(Value()), token, ttlSec, now)
      ensures locked <==> LockFree(old(Value()), now)
      ensures locked ==> lockToken == Some(token) && lockExpiresAt == Some(now + 1000 * (if ttlSec < 1 then 1 else ttlSec))
      ensures !locked ==> Value() == old(Value())
    {
      locked := lockExpiresAt.None? || lockExpiresAt.value < now;
      if locked {
        lockToken, lockExpiresAt := Some(token), Some(now + Max(1, ttlSec) * 1000);
      }
    }

    method ReleaseLock(token: string) returns (released: bool)
      modifies this`lockToken, this`lockExpiresAt
      ensures Value() == Release(old(Value()), token)
      ensures released <==> old(lockToken) == Some(token)
      ensures released ==> lockToken.None? && lockExpiresAt.None?
      ensures !released ==> Value() == old(Value())
    {
      released := lockToken == Some(token);
      if released {
        lockToken, lockExpiresAt := None, None;
      }
    }

    method CommitVersion(expected: int, key: string, etag: Option<string>) returns (committed: bool)
      modifies this
      ensures Value() == Commit(old(Value()), expected, key, etag)
      ensures committed <==> old(currentVersion) == expected
      ensures committed ==> Value() == Row(expected + 1, key, etag, None, None)
      ensures !committed ==> Value() == old(Value())
    {
      committed := currentVersion == expected;
      if committed {
        currentVersion, currentObjectKey, currentEtag := expected + 1, key, etag;
        lockToken, lockExpiresAt := None, None;
      }
    }
  }

  /** What the executor answers: nothing in time, no new workspace, or one it has uploaded. */
  datatype ExecutorReply = TimedOut | NoWorkspace | Uploaded(key: string, etag: Option<string>)

  datatype UseResult = WorkspaceLocked | TimeoutResult | Kept | Committed | VersionConflict

  /** One tool invocation of the gateway: read, lease, work, commit, and give the lease back in the end if it
      was not committed away. Undisturbed, it leaves no lease of its own behind whatever the executor
      answers, and its commit cannot conflict. */
  method UseWorkspace(ws: ExecutionWorkspace, token: string, timeoutMs: nat, now: int, reply: ExecutorReply) returns (result: UseResult)
    modifies ws
    ensures result == WorkspaceLocked <==> !old(LockFree(ws.Value(), now))
    ensures result == WorkspaceLocked ==> ws.Value() == old(ws.Value())
    ensures result != WorkspaceLocked ==> ws.lockToken.None? && ws.lockExpiresAt.None?
    ensures result != VersionConflict
    ensures result == Committed <==> old(LockFree(ws.Value(), now)) && reply.Uploaded?
    ensures result == Committed ==> ws.Value() == Row(old(ws.currentVersion) + 1, reply.key, reply.etag, None, None)
    ensures result == TimeoutResult || result == Kept ==> ws.Value() == old(ws.Value()).(lockToken := None, lockExpiresAt := None)
  {
    var expected := ws.currentVersion;
    var locked := ws.TryLockWorkspace(token, Max(30, (timeoutMs + 999) / 1000 + 30), now);
    if !locked {
      return WorkspaceLocked;
    }
    var holding := true;
    match reply {
      case TimedOut => result := TimeoutResult;
      case NoWorkspace => result := Kept;
      case Uploaded(key, etag) =>
        var committed := ws.CommitVersion(expected, key, etag);
        result := if committed then Committed else VersionConflict;
        holding := !committed;
    }
    if holding {
      var released := ws.ReleaseLock(token);
    }
  }
}
