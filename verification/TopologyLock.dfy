/** The topology lock with its lease, and the restore fence that outranks it. */
module TopologyLock {
  import opened Basics

  type OperationId = string

  const TTL_MS := 30000
  /** The far-future expiry of a restore's lock. */
  const NEVER := 253402300799999

  datatype Lock = Lock(operation: OperationId, isRestore: bool, expiresAt: int)

  datatype Fence = Fence(restore: OperationId, generation: nat)

  datatype State = State(lock: Option<Lock>, fence: Option<Fence>)

  predicate FenceOwns(s: State, lock: Lock) { lock.isRestore && s.fence.Some? && s.fence.value.restore == lock.operation }

  predicate Expired(s: State, lock: Lock, now: int) { !FenceOwns(s, lock) && now > lock.expiresAt }

  /** The gate in front of every destructive step. */
  predicate Holds(s: State, id: OperationId, now: int) {
    s.lock.Some? && s.lock.value.operation == id && !Expired(s, s.lock.value, now)
  }

  datatype Event =
    | Acquire(id: OperationId, typeIsRestore: bool)
    | Heartbeat(id: OperationId)
    | Release(id: OperationId)
    | InstallFence(restore: OperationId, generation: nat)
    | ReleaseFence(restore: OperationId, generation: nat)

  predicate CanAcquire(s: State, now: int) { s.fence.None? && (s.lock.None? || Expired(s, s.lock.value, now)) }

  /** What each request does to the two rows; a refused one does nothing. */
  function Next(s: State, e: Event, now: int): State {
    match e
    case Acquire(id, typeIsRestore) =>
      if CanAcquire(s, now) then s.(lock := Some(Lock(id, typeIsRestore, now + TTL_MS))) else s
    case Heartbeat(id) =>
      if Holds(s, id, now) then s.(lock := Some(s.lock.value.(expiresAt := now + TTL_MS))) else s
    case Release(id) =>
      if s.lock.Some? && s.lock.value.operation == id && !FenceOwns(s, s.lock.value) then s.(lock := None) else s
    case InstallFence(restore, generation) =>
      if s.fence.Some? && s.fence.value != Fence(restore, generation) then s
      else State(Some(Lock(restore, true, NEVER)), Some(Fence(restore, generation)))
    case ReleaseFence(restore, generation) =>
      if s.fence != Some(Fence(restore, generation)) then s
      else
        var drop := s.lock.Some? && s.lock.value.operation == restore && s.lock.value.isRestore;
        State(if drop then None else s.lock, None)
  }

  /** The two singleton rows as the catalog object keeps them. */
  class Catalog {
    var lock: Option<Lock>
    var fence: Option<Fence>

    constructor ()
      ensures View() == State(None, None)
    {
      lock, fence := None, None;
    }

    function View(): State
      reads this
    {
      State(lock, fence)
    }

    method AcquireTopologyLock(freshId: OperationId, typeIsRestore: bool, now: int) returns (acquired: bool)
      modifies this
      ensures View() == Next(old(View()), Acquire(freshId, typeIsRestore), now)
      ensures acquired ==> Holds(View(), freshId, now)
      ensures acquired <==> old(CanAcquire(View(), now))
    {
      if fence.Some? { return false; }
      if lock.Some? && !Expired(View(), lock.value, now) { return false; }
      lock := Some(Lock(freshId, typeIsRestore, now + TTL_MS));
      return true;
    }

    method HeartbeatTopologyLock(id: OperationId, now: int) returns (kept: bool)
      modifies this
      ensures View() == Next(old(View()), Heartbeat(id), now)
      ensures kept <==> old(Holds(View(), id, now))
      ensures kept ==> forall later | now <= later <= now + TTL_MS :: Holds(View(), id, later)
    {
      if lock.None? || lock.value.operation != id || Expired(View(), lock.value, now) { return false; }
      lock := Some(lock.value.(expiresAt := now + TTL_MS));
      return true;
    }

    method ReleaseTopologyLock(id: OperationId, now: int) returns (released: bool)
      modifies this
      ensures View() == Next(old(View()), Release(id), now)
      ensures released ==> old(lock).Some? && old(lock).value.operation == id && lock.None?
      ensures !released ==> lock == old(lock)
    {
      if lock.Some? && FenceOwns(View(), lock.value) { return false; }
      released := lock.Some? && lock.value.operation == id;
      if released { lock := None; }
    }

    /** After the checks and the awaited hash: install, or repair the companion lock. */
    method InstallRestoreFence(restore: OperationId, generation: nat, now: int) returns (installed: bool)
      modifies this
      ensures View() == Next(old(View()), InstallFence(restore, generation), now)
      ensures installed <==> fence == Some(Fence(restore, generation))
      ensures installed ==> lock == Some(Lock(restore, true, NEVER))
    {
      if fence.Some? && (fence.value.restore != restore || fence.value.generation != generation) { return false; }
      fence := Some(Fence(restore, generation));
      lock := Some(Lock(restore, true, NEVER));
      return true;
    }

    method ReleaseRestoreFence(restore: OperationId, generation: nat, now: int) returns (released: bool)
      modifies this
      ensures View() == Next(old(View()), ReleaseFence(restore, generation), now)
      ensures released <==> old(fence) == Some(Fence(restore, generation))
    {
      if fence.None? || fence.value.restore != restore || fence.value.generation != generation { return false; }
      fence := None;
      if lock.Some? && lock.value.operation == restore && lock.value.isRestore { lock := None; }
      return true;
    }
  }

  // ---- histories ----

  function After(run: seq<(Event, int)>): State {
    if run == [] then State(None, None) else Next(After(run[..|run| - 1]), run[|run| - 1].0, run[|run| - 1].1)
  }

  predicate Monotone(run: seq<(Event, int)>) { forall i, j | 0 <= i <= j < |run| :: run[i].1 <= run[j].1 }

  /** From position `from` on, nobody is given the operation id `id` again, and no restore
      is called by it. */
  predicate NotReissued(run: seq<(Event, int)>, from: nat, id: OperationId) {
    forall i | from <= i < |run| :: !(run[i].0.Acquire? && run[i].0.id == id) && !(run[i].0.InstallFence? && run[i].0.restore == id)
  }

  predicate NoRestoreCalled(run: seq<(Event, int)>, id: OperationId) {
    forall i | 0 <= i < |run| :: !(run[i].0.InstallFence? && run[i].0.restore == id)
  }

  lemma {:induction false} FenceIsNotCalled(run: seq<(Event, int)>, id: OperationId)
    requires NoRestoreCalled(run, id)
    ensures After(run).fence.Some? ==> After(run).fence.value.restore != id
  {
    if run != [] { FenceIsNotCalled(run[..|run| - 1], id); }
  }

  /** Once lost, always lost: if at some moment an operation does not hold the lock -
      expired, released or replaced - then no later heartbeat or check by it succeeds. */
  lemma {:induction false} LostForGood(run: seq<(Event, int)>, from: nat, id: OperationId, lostAt: int, later: int)
    requires from <= |run| && Monotone(run) && NotReissued(run, from, id) && NoRestoreCalled(run, id)
    requires !Holds(After(run[..from]), id, lostAt)
    requires (forall i | from <= i < |run| :: lostAt <= run[i].1) && lostAt <= later
    ensures !Holds(After(run), id, later)
    decreases |run| - from
  {
    FenceIsNotCalled(run, id);
    if from == |run| {
      assert run[..from] == run;
    } else {
      var n := |run| - 1;
      var before := run[..n];
      assert before[..from] == run[..from];
      LostForGood(before, from, id, lostAt, run[n].1);
      LostForGood(before, from, id, lostAt, if run[n].1 < later then later else run[n].1);
      LostForGood(before, from, id, lostAt, later);
      FenceIsNotCalled(before, id);
      assert run[from..][n - from] == run[n];
    }
  }

  /** While a restore fence stands, the lock row is that restore's. */
  lemma {:induction false} FenceHasTheLock(run: seq<(Event, int)>)
    ensures var s := After(run); s.fence.Some? ==> s.lock.Some? && FenceOwns(s, s.lock.value)
  {
    if run != [] { FenceHasTheLock(run[..|run| - 1]); }
  }

  /** And no acquire, no plain release and no other restore changes that; only its own
      release ends it. */
  lemma FenceStands(run: seq<(Event, int)>, e: Event, now: int)
    requires After(run).fence.Some?
    ensures var s := After(run); var s' := Next(s, e, now);
      e != ReleaseFence(s.fence.value.restore, s.fence.value.generation) ==>
        s'.fence == s.fence && s'.lock.Some? && s'.lock.value.operation == s.fence.value.restore
        && forall later: int :: Holds(s', s.fence.value.restore, later)
  {
    FenceHasTheLock(run);
  }

  /** A stale release never drops a newer holder, and a lock changes hands only when
      nobody holds it or a restore takes it. */
  lemma HolderIsDisplacedOnlyBy(s: State, e: Event, now: int, id: OperationId)
    requires Holds(s, id, now) && !Holds(Next(s, e, now), id, now)
    ensures e == Release(id) || e.InstallFence? || (e.ReleaseFence? && e.restore == id)
  {
  }

  // ---- leases ----

  /** An acquire is granted in any run exactly if no restore fence stands and the lock is free
      or its lease of thirty seconds is over, whoever had it; and what is granted is held
      exactly as long. */
  lemma {:induction false} ExpiredLeaseIsTakenOver(run: seq<(Event, int)>, id: OperationId, isRestore: bool, now: int)
    requires After(run).lock.Some? ==> After(run).lock.value.operation != id
    ensures var s, s' := After(run), Next(After(run), Acquire(id, isRestore), now);
      && (Holds(s', id, now) <==> s.fence.None? && (s.lock.None? || now > s.lock.value.expiresAt))
      && (Holds(s', id, now) ==> forall later: int :: Holds(s', id, later) <==> later <= now + 30000)
      && (Holds(s', id, now) ==> forall other: OperationId, later: int | other != id :: !Holds(s', other, later))
  {
    FenceHasTheLock(run);
  }

  /** A fence can be installed again by its own restore: whatever has become of the lock row
      it is that restore's again, for good. Any other restore is refused. */
  lemma InstallRepairs(s: State, restore: OperationId, generation: nat, now: int, later: int)
    ensures var s' := Next(s, InstallFence(restore, generation), now);
      if s.fence.None? || s.fence.value == Fence(restore, generation)
      then s'.fence == Some(Fence(restore, generation)) && s'.lock.Some? && s'.lock.value.operation == restore && s'.lock.value.isRestore && Holds(s', restore, later)
      else s' == s
  {
  }

  /** A heartbeat of the holder renews its lease from now; one of anyone else, or too late,
      does nothing. */
  lemma HeartbeatRenews(s: State, id: OperationId, now: int)
    requires s.fence.None?
    ensures var s' := Next(s, Heartbeat(id), now);
      if s.lock.Some? && s.lock.value.operation == id && now <= s.lock.value.expiresAt
      then forall later: int :: Holds(s', id, later) <==> later <= now + 30000
      else s' == s
  {
  }

  /** Once the holder releases, anyone may acquire at once. */
  lemma ReleaseFrees(s: State, id: OperationId, next: OperationId, isRestore: bool, now: int)
    requires s.fence.None? && Holds(s, id, now)
    ensures Holds(Next(Next(s, Release(id), now), Acquire(next, isRestore), now), next, now)
  {
  }
}
