/** Starting a migration under the topology lock: the lock that the caller takes before the
    request is what keeps a start's first look at the owner true until its claim - as long
    as it is held. */
module MigrationLock {
  import opened Basics
  import opened MigrationSpec
  import opened Migration
  import opened MigrationLimits

  type Op = nat

  /** A start: its request is on its way; it has read the owner and awaits the provenance
      scan; or it is over, claimed or refused. */
  datatype Start = Asking | Checked(owner: ShardId, target: ShardId) | Over

  datatype Locked = Locked(m: Sys, holder: Option<Op>, starts: map<Op, Start>)

  /** `Release` is the end of an operation whose start is over; `Lapse` is every other way
      to lose the lock: the lease expires, an operator forces it open, or the caller
      releases it after a lost reply. A drain starts one migration after the other. */
  datatype Turn =
    | Acquire(op: Op)
    | Check(op: Op, target: ShardId)
    | Scanned(op: Op, attributed: bool)
    | NextOfDrain(op: Op)
    | Release(op: Op)
    | Lapse
    | Step(e: Event)

  predicate InFlight(s: Locked, op: Op) { op in s.starts && !s.starts[op].Over? }

  predicate SomeInFlight(s: Locked) { exists op | op in s.starts :: !s.starts[op].Over? }

  predicate PassesCheck(s: Locked, target: ShardId) { s.m.row.status == NoMigration && s.m.row.cleanup.None? && target != s.m.row.owner }

  /** What a turn does to the vBucket itself. */
  function EventOf(s: Locked, t: Turn): seq<Event> {
    match t
    case Check(op, target) => if op in s.starts && s.starts[op].Asking? && PassesCheck(s, target) then [CheckStart(target)] else []
    case Scanned(op, attributed) =>
      if op in s.starts && s.starts[op].Checked? && attributed then [Claim((s.starts[op].owner, s.starts[op].target))] else []
    case Step(e) => if e.CheckStart? || e.Claim? then [] else [e]
    case _ => []
  }

  function After1(m: Sys, events: seq<Event>): Sys { if events == [] then m else Migration.Next(m, events[0]) }

  /** What it does to the lock and the starts. */
  function Control(s: Locked, t: Turn): (Option<Op>, map<Op, Start>) {
    match t
    case Acquire(op) => if s.holder.None? && op !in s.starts then (Some(op), s.starts[op := Asking]) else (s.holder, s.starts)
    case Check(op, target) =>
      if op in s.starts && s.starts[op].Asking?
      then (s.holder, s.starts[op := if PassesCheck(s, target) then Checked(s.m.row.owner, target) else Over]) else (s.holder, s.starts)
    case Scanned(op, _) => if op in s.starts && s.starts[op].Checked? then (s.holder, s.starts[op := Over]) else (s.holder, s.starts)
    case NextOfDrain(op) => if s.holder == Some(op) && op in s.starts && s.starts[op].Over? then (s.holder, s.starts[op := Asking]) else (s.holder, s.starts)
    case Release(op) => if s.holder == Some(op) && !InFlight(s, op) then (None, s.starts) else (s.holder, s.starts)
    case Lapse => (None, s.starts)
    case Step(_) => (s.holder, s.starts)
  }

  function Next(s: Locked, t: Turn): Locked { Locked(After1(s.m, EventOf(s, t)), Control(s, t).0, Control(s, t).1) }

  function From(s: Locked, run: seq<Turn>): Locked {
    if run == [] then s else Next(From(s, run[..|run| - 1]), run[|run| - 1])
  }

  /** The events of a run. */
  function Trace(s: Locked, run: seq<Turn>): seq<Event> {
    if run == [] then [] else Trace(s, run[..|run| - 1]) + EventOf(From(s, run[..|run| - 1]), run[|run| - 1])
  }

  function Start0(owner: ShardId): Locked { Locked(Migration.Start(owner), None, map[]) }

  lemma {:induction false} TraceOne(m: Sys, events: seq<Event>, more: seq<Event>)
    requires |more| <= 1
    ensures Migration.From(m, events + more) == After1(Migration.From(m, events), more)
  {
    if more == [] { assert events + more == events; }
    else {
      FromStep(m, events, more[0]);
      assert more == [more[0]];
    }
  }

  lemma AtMostOne(s: Locked, t: Turn)
    ensures |EventOf(s, t)| <= 1
  {
  }

  lemma {:induction false} TraceRuns(s: Locked, run: seq<Turn>)
    ensures From(s, run).m == Migration.From(s.m, Trace(s, run))
  {
    if run != [] {
      var n := |run| - 1;
      TraceRuns(s, run[..n]);
      AtMostOne(From(s, run[..n]), run[n]);
      TraceOne(s.m, Trace(s, run[..n]), EventOf(From(s, run[..n]), run[n]));
    }
  }

  // ---- what the lock keeps ----

  /** A start in flight has the lock, and what it read is still so. */
  predicate StartOk(s: Locked, op: Op)
    requires op in s.starts
  {
    && (!s.starts[op].Over? ==> s.holder == Some(op))
    && (s.starts[op].Checked? ==>
          s.m.row.status == NoMigration && s.m.row.cleanup.None? && s.m.row.owner == s.starts[op].owner != s.starts[op].target)
  }

  ghost predicate LockOk(s: Locked) { Inv(s.m) && forall op | op in s.starts :: StartOk(s, op) }

  /** An idle vBucket changes owner by no event but a claim's later flip. */
  lemma IdleStays(m: Sys, e: Event)
    requires Inv(m) && m.row.status == NoMigration && m.row.cleanup.None? && !e.Claim?
    ensures Migration.Next(m, e).row == m.row
  {
    if Migration.Next(m, e).row.owner != m.row.owner { OnlyTheFlipMovesTheOwner(m, e); }
  }

  predicate KeepsLock(s: Locked, t: Turn) { t.Lapse? ==> !SomeInFlight(s) }

  lemma FreshClaim(s: Locked, t: Turn)
    requires LockOk(s)
    ensures forall e | e in EventOf(s, t) :: ClaimIsFresh(s.m, e)
  {
    if t.Scanned? && t.op in s.starts { assert StartOk(s, t.op); }
  }

  lemma LockKept(s: Locked, t: Turn)
    requires LockOk(s) && KeepsLock(s, t)
    ensures LockOk(Next(s, t))
  {
    var events, s' := EventOf(s, t), Next(s, t);
    FreshClaim(s, t);
    if events != [] { NextKeepsInv(s.m, events[0]); }
    forall op | op in s'.starts ensures StartOk(s', op) {
      if op in s.starts { assert StartOk(s, op); }
      if t.Scanned? && t.op in s.starts { assert StartOk(s, t.op); }
      if op in s.starts && s.starts[op].Checked? && events != [] && !events[0].Claim? { IdleStays(s.m, events[0]); }
    }
  }

  ghost predicate LocksAreKept(s: Locked, run: seq<Turn>) { forall n: nat | n < |run| :: KeepsLock(From(s, run[..n]), run[n]) }

  lemma {:induction false} PrefixKeepsLocks(s: Locked, run: seq<Turn>, k: nat)
    requires LocksAreKept(s, run) && k <= |run|
    ensures LocksAreKept(s, run[..k]) && (k < |run| ==> KeepsLock(From(s, run[..k]), run[k]))
  {
    forall m: nat | m < k ensures KeepsLock(From(s, run[..k][..m]), run[..k][m]) {
      assert run[..k][..m] == run[..m] && KeepsLock(From(s, run[..m]), run[m]);
    }
  }

  lemma {:induction false} RunKeepsLock(s: Locked, run: seq<Turn>)
    requires LockOk(s) && LocksAreKept(s, run)
    ensures LockOk(From(s, run))
  {
    if run != [] {
      var n := |run| - 1;
      PrefixKeepsLocks(s, run, n);
      RunKeepsLock(s, run[..n]);
      LockKept(From(s, run[..n]), run[n]);
    }
  }

  lemma {:induction false} RunClaimsFresh(s: Locked, run: seq<Turn>)
    requires LockOk(s) && LocksAreKept(s, run)
    ensures ClaimsAreFresh(s.m, Trace(s, run))
  {
    if run != [] {
      var n := |run| - 1;
      PrefixKeepsLocks(s, run, n);
      RunKeepsLock(s, run[..n]);
      RunClaimsFresh(s, run[..n]);
      var at := From(s, run[..n]);
      FreshClaim(at, run[n]);
      AtMostOne(at, run[n]);
      TraceRuns(s, run[..n]);
      OneMoreIsFresh(s.m, Trace(s, run[..n]), EventOf(at, run[n]));
    }
  }

  lemma {:induction false} OneMoreIsFresh(m: Sys, events: seq<Event>, more: seq<Event>)
    requires ClaimsAreFresh(m, events) && |more| <= 1 && forall e | e in more :: ClaimIsFresh(Migration.From(m, events), e)
    ensures ClaimsAreFresh(m, events + more)
  {
    var all := events + more;
    forall n: nat | n < |all| ensures ClaimIsFresh(Migration.From(m, all[..n]), all[n]) {
      if n < |events| { assert all[..n] == events[..n] && ClaimIsFresh(Migration.From(m, events[..n]), events[n]); }
      else { assert all[..n] == events && more[0] in more; }
    }
  }

  /** While no start in flight loses the lock, every claim names a shard other than the
      owner of that moment; with checksums read when no mirror is outstanding, no
      acknowledged write is lost. */
  lemma {:induction false} LockedStartsLoseNothing(owner: ShardId, run: seq<Turn>)
    requires LocksAreKept(Start0(owner), run)
    ensures ClaimsAreFresh(Migration.Start(owner), Trace(Start0(owner), run))
    ensures ChecksAreClean(Migration.Start(owner), Trace(Start0(owner), run), 0) ==> Lossless(From(Start0(owner), run).m)
  {
    RunClaimsFresh(Start0(owner), run);
    TraceRuns(Start0(owner), run);
    if ChecksAreClean(Migration.Start(owner), Trace(Start0(owner), run), 0) { NoAcknowledgedWriteLost(owner, Trace(Start0(owner), run)); }
  }

  // ---- and a start that loses it ----

  ghost predicate CanReach(owner: ShardId, s: Locked) { exists run: seq<Turn> :: From(Start0(owner), run) == s }

  lemma {:induction false} Take(owner: ShardId, s: Locked, t: Turn) returns (s': Locked)
    requires CanReach(owner, s)
    ensures CanReach(owner, s') && s' == Next(s, t)
  {
    var run: seq<Turn> :| From(Start0(owner), run) == s;
    s' := Next(s, t);
    assert (run + [t])[..|run + [t]| - 1] == run;
    assert From(Start0(owner), run + [t]) == s';
  }

  /** One event of the vBucket. */
  lemma Does(owner: ShardId, s: Locked, e: Event, m: Sys) returns (s': Locked)
    requires CanReach(owner, s) && !e.CheckStart? && !e.Claim? && Migration.Next(s.m, e) == m
    ensures CanReach(owner, s') && s' == s.(m := m)
  {
    s' := Take(owner, s, Step(e));
  }

  function Idle(source: ShardId, target: ShardId, c: Content, put: Stmt): Sys {
    Migration.Start(source).(rows := map[source := c], routes := {Route(source, None)}, acked := [put], checks := {(source, target)})
  }

  lemma Goes(owner: ShardId, s: Locked, t: Turn, s': Locked)
    requires CanReach(owner, s) && Next(s, t) == s'
    ensures CanReach(owner, s')
  {
    var _ := Take(owner, s, t);
  }

  /** A row is written. */
  lemma CanWriteRow(source: ShardId, target: ShardId, put: Stmt, c: Content)
    requires Puts(put, c)
    ensures CanReach(source, Locked(Idle(source, target, c, put).(checks := {}), None, map[]))
  {
    var none: seq<Turn> := [];
    assert From(Start0(source), none) == Start0(source);
    var s := Does(source, Start0(source), RouteWrite, Migration.Start(source).(routes := {Route(source, None)}));
    s := Does(source, s, ArriveWrite(Route(source, None), put), Idle(source, target, c, put).(checks := {}));
  }

  /** An operation takes the lock and reads the owner. */
  lemma CanAsk(source: ShardId, target: ShardId, put: Stmt, c: Content)
    requires source != target && Puts(put, c)
    ensures CanReach(source, Locked(Idle(source, target, c, put), Some(0), map[0 := Checked(source, target)]))
  {
    CanWriteRow(source, target, put, c);
    var m := Idle(source, target, c, put);
    Goes(source, Locked(m.(checks := {}), None, map[]), Acquire(0), Locked(m.(checks := {}), Some(0), map[0 := Asking]));
    CheckPasses(m.(checks := {}), 0, target, map[0 := Asking]);
    assert {} + {(source, target)} == {(source, target)};
    assert map[0 := Asking][0 := Checked(source, target)] == map[0 := Checked(source, target)];
    Goes(source, Locked(m.(checks := {}), Some(0), map[0 := Asking]), Check(0, target), Locked(m, Some(0), map[0 := Checked(source, target)]));
  }

  lemma CheckPasses(m: Sys, op: Op, target: ShardId, starts: map<Op, Start>)
    requires op in starts && starts[op].Asking? && m.row.status == NoMigration && m.row.cleanup.None? && target != m.row.owner
    ensures Next(Locked(m, Some(op), starts), Check(op, target))
         == Locked(m.(checks := m.checks + {(m.row.owner, target)}), Some(op), starts[op := Checked(m.row.owner, target)])
  {
  }

  /** Its lease expires while it awaits the scan, and a second operation takes the lock. */
  lemma CanReplace(source: ShardId, target: ShardId, put: Stmt, c: Content)
    requires source != target && Puts(put, c)
    ensures CanReach(source, Locked(Idle(source, target, c, put), Some(1), map[0 := Checked(source, target), 1 := Checked(source, target)]))
  {
    CanAsk(source, target, put, c);
    var m, one := Idle(source, target, c, put), map[0 := Checked(source, target)];
    var two := one[1 := Asking];
    Goes(source, Locked(m, Some(0), one), Lapse, Locked(m, None, one));
    Goes(source, Locked(m, None, one), Acquire(1), Locked(m, Some(1), two));
    CheckPasses(m, 1, target, two);
    assert m.checks + {(source, target)} == m.checks;
    assert two[1 := Checked(source, target)] == map[0 := Checked(source, target), 1 := Checked(source, target)];
    Goes(source, Locked(m, Some(1), two), Check(1, target), Locked(m, Some(1), two[1 := Checked(source, target)]));
  }

  /** The second operation's scan comes back first. */
  lemma CanLapse(source: ShardId, target: ShardId, put: Stmt, c: Content) returns (s: Locked)
    requires source != target && Puts(put, c)
    ensures CanReach(source, s)
    ensures s == Locked(Idle(source, target, c, put).(row := MapRow(source, Backfilling, target, None)), Some(1), map[0 := Checked(source, target), 1 := Over])
  {
    CanReplace(source, target, put, c);
    var m, two := Idle(source, target, c, put), map[0 := Checked(source, target), 1 := Checked(source, target)];
    s := Locked(m.(row := MapRow(source, Backfilling, target, None)), Some(1), two[1 := Over]);
    ScanClaims(m, two);
    Goes(source, Locked(m, Some(1), two), Scanned(1, true), s);
    assert two[1 := Over] == map[0 := Checked(source, target), 1 := Over];
  }

  lemma ScanClaims(m: Sys, starts: map<Op, Start>)
    requires 1 in starts && starts[1].Checked? && (starts[1].owner, starts[1].target) in m.checks && m.row.status == NoMigration && m.row.cleanup.None?
    ensures Next(Locked(m, Some(1), starts), Scanned(1, true))
         == Locked(m.(row := m.row.(status := Backfilling, target := starts[1].target)), Some(1), starts[1 := Over])
  {
  }

  /** The second operation's move, step by step. */
  function Moving(source: ShardId, target: ShardId, c: Content, put: Stmt, status: Status, pc: Pc): Sys {
    Idle(source, target, c, put).(row := MapRow(source, status, target, None), pc := pc, rows := map[source := c, target := c])
  }

  lemma CanMove(source: ShardId, target: ShardId, put: Stmt, c: Content) returns (s: Locked)
    requires source != target && Puts(put, c)
    ensures CanReach(source, s)
    ensures s == Locked(Moving(source, target, c, put, Cutover, Fencing(source, target)), Some(1), map[0 := Checked(source, target), 1 := Over])
  {
    s := CanLapse(source, target, put, c);
    s := Does(source, s, GoOn, s.m.(pc := Exporting(source, target)));
    assert (map k | k in c && k in c.Keys :: c[k]) == c;
    s := Does(source, s, Tick(Answered, c.Keys, true, true), s.m.(pc := Importing(source, target, c)));
    assert map[] + c == c;
    s := Does(source, s, GoOn, Moving(source, target, c, put, Backfilling, Exporting(source, target)));
    s := Does(source, s, GoOn, Moving(source, target, c, put, Cutover, Fencing(source, target)));
  }

  function Sealing(source: ShardId, target: ShardId, c: Content, put: Stmt, pc: Pc): Sys {
    Moving(source, target, c, put, Cutover, pc).(fenced := {source})
  }

  lemma CanSeal(source: ShardId, target: ShardId, put: Stmt, c: Content) returns (s: Locked)
    requires source != target && Puts(put, c)
    ensures CanReach(source, s)
    ensures s == Locked(Sealing(source, target, c, put, CheckingTarget(source, target, c)), Some(1), map[0 := Checked(source, target), 1 := Over])
  {
    s := CanMove(source, target, put, c);
    s := Does(source, s, GoOn, Sealing(source, target, c, put, Draining(source, target)));
    assert Queued(s.m, source) == {};
    s := Does(source, s, GoOn, Sealing(source, target, c, put, Counting(source, target)));
    s := Does(source, s, GoOn, Sealing(source, target, c, put, CheckingSource(source, target)));
    s := Does(source, s, GoOn, Sealing(source, target, c, put, CheckingTarget(source, target, c)));
  }

  lemma CanFlip(source: ShardId, target: ShardId, put: Stmt, c: Content) returns (s: Locked)
    requires source != target && Puts(put, c)
    ensures CanReach(source, s)
    ensures s == Locked(Sealing(source, target, c, put, CleanupDeleting(source)).(row := MapRow(target, NoMigration, target, Some(source))),
                        Some(1), map[0 := Checked(source, target), 1 := Over])
  {
    s := CanSeal(source, target, put, c);
    s := Does(source, s, GoOn, Sealing(source, target, c, put, Comparing(source, target, c, c)));
    s := Does(source, s, GoOn, Sealing(source, target, c, put, ConfirmingLock(source, target)));
    s := Does(source, s, GoOn, s.m.(row := MapRow(target, NoMigration, target, Some(source)), pc := CleanupDeleting(source)));
  }

  function Moved(source: ShardId, target: ShardId, c: Content, put: Stmt, cleanup: Option<ShardId>, pc: Pc): Sys {
    Migration.Start(source).(row := MapRow(target, NoMigration, target, cleanup), pc := pc, rows := map[source := map[], target := c],
                             acked := [put], checks := {(source, target)})
  }

  lemma CanDelete(source: ShardId, target: ShardId, put: Stmt, c: Content) returns (s: Locked)
    requires source != target && Puts(put, c)
    ensures CanReach(source, s)
    ensures s == Locked(Moved(source, target, c, put, Some(source), CleanupUnfencing(source)).(routes := {Route(source, None)}, fenced := {source}),
                        Some(1), map[0 := Checked(source, target), 1 := Over])
  {
    s := CanFlip(source, target, put, c);
    DeletesRows(s.m, source, target, c);
    s := Does(source, s, GoOn, s.m.(rows := map[source := map[], target := c], pc := CleanupUnfencing(source)));
  }

  lemma DeletesRows(m: Sys, source: ShardId, target: ShardId, c: Content)
    requires source != target && m.pc == CleanupDeleting(source) && m.rows == map[source := c, target := c] && m.queue == {}
    ensures Migration.Next(m, GoOn) == m.(rows := map[source := map[], target := c], pc := CleanupUnfencing(source))
  {
    assert m.rows[source := map[]] == map[source := map[], target := c];
    assert Queued(m, source) == {};
  }

  lemma CanUnfence(source: ShardId, target: ShardId, put: Stmt, c: Content) returns (s: Locked)
    requires source != target && Puts(put, c)
    ensures CanReach(source, s)
    ensures s == Locked(Moved(source, target, c, put, Some(source), CleanupClearing(source)), Some(1), map[0 := Checked(source, target), 1 := Over])
  {
    s := CanDelete(source, target, put, c);
    s := Does(source, s, GoOn, Moved(source, target, c, put, Some(source), CleanupClearing(source)));
  }

  lemma CanClean(source: ShardId, target: ShardId, put: Stmt, c: Content) returns (s: Locked)
    requires source != target && Puts(put, c)
    ensures CanReach(source, s)
    ensures s == Locked(Moved(source, target, c, put, None, Resting), Some(1), map[0 := Checked(source, target), 1 := Over])
  {
    s := CanUnfence(source, target, put, c);
    s := Does(source, s, GoOn, Moved(source, target, c, put, None, Resting));
  }

  /** The whole move is done, cleanup and all, while the first start still awaits its scan:
      what it read is stale. */
  lemma CanHaveStaleCheck(source: ShardId, target: ShardId, put: Stmt, c: Content) returns (s: Locked)
    requires source != target && Puts(put, c)
    ensures CanReach(source, s) && InFlight(s, 0) && s.starts[0] == Checked(source, target)
    ensures s.m.row.owner == target && s.m.Rows(target) == c && Lossless(s.m) && Quiet(s.m) && (source, target) in s.m.checks && s.m.jobs == []
  {
    s := CanClean(source, target, put, c);
    ReplayOne([], put);
    assert [] + [put] == [put];
  }

  /** So, from the start of the system, one lost lease and an order of events lose every
      acknowledged write. */
  lemma StaleStartLosesEverything(source: ShardId, target: ShardId, put: Stmt, c: Content) returns (s: Locked, run: seq<Event>)
    requires source != target && Puts(put, c) && c != map[]
    ensures CanReach(source, s) && InFlight(s, 0) && Lossless(s.m)
    ensures run == EventOf(s, Scanned(0, true)) + LoseAll
    ensures !Lossless(Migration.From(s.m, run))
  {
    s := CanHaveStaleCheck(source, target, put, c);
    run := StaleClaimLosesEverything(s.m, (source, target));
  }
}
