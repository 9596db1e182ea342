/** Where the migration protocol's own checks stop short, and exactly when. */
module MigrationLimits {
  import opened Basics
  import opened MigrationSpec
  import opened Migration

  // ---- a mirror that outlives its check ----

  lemma {:induction false} FromStep(s: Sys, run: seq<Event>, e: Event)
    ensures From(s, run + [e]) == Next(From(s, run), e)
  {
    assert (run + [e])[..|run + [e]| - 1] == run;
  }

  /** One more event that neither claims nor reads a target checksum. */
  lemma {:induction false} Extend(s: Sys, run: seq<Event>, e: Event) returns (longer: seq<Event>)
    requires ClaimsAreFresh(s, run) && ChecksAreClean(s, run, 1) && !e.Claim?
    requires run == [] || !e.Tick? || !From(s, run).pc.CheckingTarget?
    ensures ClaimsAreFresh(s, longer) && ChecksAreClean(s, longer, 1) && longer != []
    ensures From(s, longer) == Next(From(s, run), e)
  {
    longer := run + [e];
    FromStep(s, run, e);
    forall n: nat | n < |longer| ensures ClaimIsFresh(From(s, longer[..n]), longer[n]) {
      if n < |run| { assert longer[..n] == run[..n] && ClaimIsFresh(From(s, run[..n]), run[n]); }
    }
    forall n: nat | 1 <= n < |longer| ensures CheckIsClean(From(s, longer[..n]), longer[n]) {
      if n < |run| { assert longer[..n] == run[..n] && CheckIsClean(From(s, run[..n]), run[n]); }
      else { assert longer[..n] == run; }
    }
  }

  const GoOn := Tick(Answered, {}, false, true)

  lemma RunsToConfirm(s: Sys) returns (run: seq<Event>)
    requires Inv(s) && s.pc.CheckingTarget? && s.pc.sourceSum == s.Rows(s.pc.target)
    ensures ClaimsAreFresh(s, run) && ChecksAreClean(s, run, 1) && run != []
    ensures From(s, run) == s.(pc := ConfirmingLock(s.pc.source, s.pc.target))
  {
    run := Extend(s, [], GoOn);
    run := Extend(s, run, GoOn);
  }

  lemma Confirms(s: Sys)
    requires Inv(s) && s.pc.CheckingTarget?
    ensures Next(s.(pc := ConfirmingLock(s.pc.source, s.pc.target)), GoOn)
         == s.(row := Flipped(s.row, s.row.owner, s.row.target), pc := CleanupDeleting(s.row.owner))
  {
  }

  /** With equal checksums the tick goes on to flip. */
  lemma RunsToFlip(s: Sys) returns (run: seq<Event>)
    requires Inv(s) && s.pc.CheckingTarget? && s.pc.sourceSum == s.Rows(s.pc.target)
    ensures ClaimsAreFresh(s, run) && ChecksAreClean(s, run, 1) && run != []
    ensures From(s, run) == s.(row := Flipped(s.row, s.row.owner, s.row.target), pc := CleanupDeleting(s.row.owner))
  {
    run := RunsToConfirm(s);
    Confirms(s);
    run := Extend(s, run, GoOn);
  }

  /** After the flip a client rewrites the rows. */
  lemma ClientRewrites(s: Sys, c: Content) returns (run: seq<Event>)
    requires Inv(s) && s.pc.CheckingTarget? && s.pc.sourceSum == s.Rows(s.pc.target)
    ensures ClaimsAreFresh(s, run) && ChecksAreClean(s, run, 1) && run != []
    ensures var s' := From(s, run);
      && s'.row.owner == s.row.target && !s'.pc.CheckingTarget? && s'.Rows(s.row.target) == c && Replay(s'.acked) == c
      && s'.jobs == s.jobs && s'.queue == s.queue && s'.wire == s.wire && s'.applied == s.applied
  {
    run := RunsToFlip(s);
    assert s.row.target in s.fenced ==> FenceOk(s, s.row.target);
    run := Extend(s, run, RouteWrite);
    var rewrite: Stmt := (_: Content) => Touched(c);
    ReplayOne(s.acked, rewrite);
    run := Extend(s, run, ArriveWrite(Route(s.row.target, None), rewrite));
  }

  lemma StrayLeaves(s: Sys, id: nat, c: Content) returns (run: seq<Event>)
    requires Inv(s) && s.pc.CheckingTarget? && s.pc.sourceSum == s.Rows(s.pc.target) && Stray(s, id, s.pc.target)
    ensures ClaimsAreFresh(s, run) && ChecksAreClean(s, run, 1) && run != []
    ensures var s' := From(s, run);
      && s'.row.owner == s.row.target && !s'.pc.CheckingTarget? && s'.Rows(s.row.target) == c && Replay(s'.acked) == c
      && s'.jobs == s.jobs && id in s'.wire && s'.applied == s.applied
  {
    run := ClientRewrites(s, c);
    run := Extend(s, run, BeginDelivery(id));
  }

  /** And the stray then lands on what the client wrote. */
  lemma StrayOverwrites(s: Sys, id: nat, c: Content) returns (run: seq<Event>)
    requires Inv(s) && s.pc.CheckingTarget? && s.pc.sourceSum == s.Rows(s.pc.target)
    requires Stray(s, id, s.pc.target) && Run(s.jobs[id].stmt, c) != c
    ensures ClaimsAreFresh(s, run) && ChecksAreClean(s, run, 1) && !Lossless(From(s, run))
  {
    run := StrayLeaves(s, id, c);
    run := Extend(s, run, Land(id));
  }

  /** The checks the code makes before the flip do not include "no mirror is on its way".
      From equal checksums, an acknowledged write can be lost later in a run that is
      otherwise in order if and only if such a mirror is outstanding. */
  lemma {:induction false} LossIffStray(s: Sys)
    requires Inv(s) && Safe(s) && s.pc.CheckingTarget? && s.pc.sourceSum == s.Rows(s.pc.target)
    ensures NoStray(s, s.pc.target) <==>
      forall run | ClaimsAreFresh(s, run) && ChecksAreClean(s, run, 1) :: Lossless(From(s, run))
  {
    if NoStray(s, s.pc.target) {
      forall run | ClaimsAreFresh(s, run) && ChecksAreClean(s, run, 1) ensures Lossless(From(s, run)) {
        RunKeepsSafe(s, run, 1);
      }
    } else {
      var id: nat :| Stray(s, id, s.pc.target);
      var c: Content :| Run(s.jobs[id].stmt, c) != c;
      var run := StrayOverwrites(s, id, c);
    }
  }

  // ---- such a mirror can be there ----

  ghost predicate CanReach(owner: ShardId, s: Sys) { exists run: seq<Event> :: After(owner, run) == s }

  lemma StartIsReached(owner: ShardId)
    ensures CanReach(owner, Start(owner))
  {
    var none: seq<Event> := [];
    assert After(owner, none) == Start(owner);
  }

  lemma {:induction false} Take(owner: ShardId, s: Sys, e: Event) returns (s': Sys)
    requires CanReach(owner, s)
    ensures CanReach(owner, s') && s' == Next(s, e)
  {
    var run: seq<Event> :| After(owner, run) == s;
    FromStep(Start(owner), run, e);
    s' := Next(s, e);
    assert After(owner, run + [e]) == s';
  }

  ghost predicate Puts(stmt: Stmt, c: Content) { forall before: Content :: stmt(before) == Touched(c) }

  /** A row is written before the migration. */
  lemma CanWrite(source: ShardId, put: Stmt, c: Content) returns (s: Sys)
    requires Puts(put, c)
    ensures CanReach(source, s)
    ensures s == Start(source).(rows := map[source := c], routes := {Route(source, None)}, acked := [put])
  {
    StartIsReached(source);
    s := Take(source, Start(source), RouteWrite);
    s := Take(source, s, ArriveWrite(Route(source, None), put));
  }

  lemma CanStart(source: ShardId, target: ShardId, put: Stmt, c: Content) returns (s: Sys)
    requires source != target && Puts(put, c)
    ensures CanReach(source, s)
    ensures s == Sys(MapRow(source, Backfilling, target, None), Resting, {(source, target)}, map[source := c], {},
                     {Route(source, None)}, [], {}, {}, {}, map[], [put])
  {
    s := CanWrite(source, put, c);
    s := Take(source, s, CheckStart(target));
    s := Take(source, s, Claim((source, target)));
  }

  function Migrating(source: ShardId, target: ShardId, put: Stmt, c: Content): Sys {
    Sys(MapRow(source, Backfilling, target, None), Resting, {(source, target)}, map[source := c], {},
        {Route(source, None), Route(source, Some(target))}, [], {}, {}, {}, map[0 := Intent(source, put, Some(target))], [put])
  }

  /** A transaction that will write the same row again prepares, with a mirror. */
  lemma CanPrepare(source: ShardId, target: ShardId, put: Stmt, c: Content) returns (s: Sys)
    requires source != target && Puts(put, c)
    ensures CanReach(source, s) && s == Migrating(source, target, put, c)
  {
    s := CanStart(source, target, put, c);
    s := Take(source, s, RouteWrite);
    s := Take(source, s, ArrivePrepare(Route(source, Some(target)), 0, put));
  }

  /** The backfill copies everything. */
  lemma CanCopy(source: ShardId, target: ShardId, put: Stmt, c: Content) returns (s: Sys)
    requires source != target && Puts(put, c)
    ensures CanReach(source, s)
    ensures s == Migrating(source, target, put, c).(pc := Exporting(source, target), rows := map[source := c, target := c])
  {
    s := CanPrepare(source, target, put, c);
    s := Take(source, s, GoOn);
    s := Take(source, s, Tick(Answered, c.Keys, true, true));
    assert s.pc.page == c && map[] + c == c;
    s := Take(source, s, GoOn);
  }

  function Fenced(source: ShardId, target: ShardId, put: Stmt, c: Content, pc: Pc): Sys {
    Migrating(source, target, put, c).(row := MapRow(source, Cutover, target, None), pc := pc,
      rows := map[source := c, target := c], fenced := {source})
  }

  /** The source is fenced and its mirror queue is found empty. */
  lemma CanDrain(source: ShardId, target: ShardId, put: Stmt, c: Content) returns (s: Sys)
    requires source != target && Puts(put, c)
    ensures CanReach(source, s) && s == Fenced(source, target, put, c, Counting(source, target))
  {
    s := CanCopy(source, target, put, c);
    s := Take(source, s, GoOn);
    s := Take(source, s, GoOn);
    assert Queued(s, source) == {};
    s := Take(source, s, GoOn);
  }

  /** The transaction commits after the drain and before the count of prepared intents. */
  lemma CanCommit(source: ShardId, target: ShardId, put: Stmt, c: Content) returns (s: Sys)
    requires source != target && Puts(put, c)
    ensures CanReach(source, s)
    ensures s == Fenced(source, target, put, c, Counting(source, target)).(
                   prepared := map[], jobs := [Job(source, target, put)], queue := {0}, acked := [put, put])
  {
    s := CanDrain(source, target, put, c);
    s := Take(source, s, CommitIntent(0));
    assert s.rows == map[source := c, target := c];
    assert s.prepared == map[];
  }

  /** It changed no row, so the checksums agree, and its mirror is still queued. */
  lemma CanLeaveAStray(source: ShardId, target: ShardId, put: Stmt, c: Content) returns (s: Sys)
    requires source != target && Puts(put, c)
    ensures CanReach(source, s)
    ensures s == Fenced(source, target, put, c, CheckingTarget(source, target, c)).(
                   prepared := map[], jobs := [Job(source, target, put)], queue := {0}, acked := [put, put])
  {
    s := CanCommit(source, target, put, c);
    s := Take(source, s, GoOn);
    s := Take(source, s, GoOn);
  }

  lemma ReplayPuts(put: Stmt, c: Content)
    requires Puts(put, c)
    ensures Replay([put, put]) == c
  {
    ReplayOne([put], put);
    assert [put] + [put] == [put, put];
  }

  /** So an acknowledged write can be lost from the start of the system, through checks
      that all pass, whatever the row: the drain is not looked at again after the count. */
  lemma AcknowledgedWriteCanBeLost(source: ShardId, target: ShardId, put: Stmt, c: Content)
      returns (s: Sys, run: seq<Event>)
    requires source != target && Puts(put, c) && c != map[]
    ensures CanReach(source, s) && Lossless(s) && s.Rows(source) == s.Rows(target) && s.fenced == {source} && s.prepared == map[]
    ensures ClaimsAreFresh(s, run) && ChecksAreClean(s, run, 1) && !Lossless(From(s, run))
  {
    s := CanLeaveAStray(source, target, put, c);
    ReplayPuts(put, c);
    assert Run(put, map[]) != map[];
    run := StrayOverwrites(s, 0, map[]);
  }

  // ---- a claim whose check is stale ----

  /** A vBucket migrating onto its own shard, with nothing queued or prepared there. */
  predicate OntoItself(s: Sys, status: Status, pc: Pc) {
    s.row == MapRow(s.row.owner, status, s.row.owner, None) && s.pc == pc && s.queue == {} && s.prepared == map[]
  }

  lemma OntoItselfReachesCutover(s: Sys) returns (s': Sys)
    requires OntoItself(s, Backfilling, Resting)
    ensures From(s, [GoOn, GoOn, GoOn]) == s'
    ensures s' == s.(row := s.row.(status := Cutover), pc := Draining(s.row.owner, s.row.owner), fenced := s.fenced + {s.row.owner})
  {
    var s1 := Next(s, GoOn);
    var s2 := Next(s1, GoOn);
    s' := Next(s2, GoOn);
    Three(s, GoOn, GoOn, GoOn);
  }

  lemma {:induction false} Three(s: Sys, a: Event, b: Event, c: Event)
    ensures From(s, [a, b, c]) == Next(Next(Next(s, a), b), c)
  {
    FromStep(s, [], a);
    FromStep(s, [a], b);
    FromStep(s, [a, b], c);
    assert [] + [a] == [a] && [a] + [b] == [a, b] && [a, b] + [c] == [a, b, c];
  }

  /** The mirrors are drained, the intents counted and the checksums of the shard with
      itself agree. */
  lemma OntoItselfPassesTheChecks(s: Sys) returns (s': Sys)
    requires OntoItself(s, Cutover, Draining(s.row.owner, s.row.owner))
    ensures From(s, [GoOn, GoOn, GoOn]) == s'
    ensures s' == s.(pc := CheckingTarget(s.row.owner, s.row.owner, s.Rows(s.row.owner)))
  {
    assert Queued(s, s.row.owner) == {};
    s' := Next(Next(Next(s, GoOn), GoOn), GoOn);
    Three(s, GoOn, GoOn, GoOn);
  }

  /** The flip names the shard as its own source, and the cleanup deletes its rows. */
  lemma OntoItselfDeletes(s: Sys) returns (s': Sys)
    requires OntoItself(s, Cutover, CheckingTarget(s.row.owner, s.row.owner, s.Rows(s.row.owner)))
    ensures s' == Next(From(s, [GoOn, GoOn, GoOn]), GoOn)
    ensures s'.row.owner == s.row.owner && s'.Rows(s.row.owner) == map[] && s'.acked == s.acked
  {
    Three(s, GoOn, GoOn, GoOn);
    var s1 := Next(Next(Next(s, GoOn), GoOn), GoOn);
    assert s1 == s.(row := MapRow(s.row.owner, NoMigration, s.row.owner, Some(s.row.owner)), pc := CleanupDeleting(s.row.owner));
    s' := Next(s1, GoOn);
  }

  lemma {:induction false} FromJoin(s: Sys, a: seq<Event>, b: seq<Event>)
    ensures From(s, a + b) == From(From(s, a), b)
  {
    if b == [] {
      assert a + b == a;
    } else {
      var n := |b| - 1;
      FromJoin(s, a, b[..n]);
      assert (a + b)[..|a + b| - 1] == a + b[..n];
    }
  }

  /** No migration, no cleanup, no tick under way, no mirror queued, nothing prepared. */
  predicate Quiet(s: Sys) {
    s.row.status == NoMigration && s.row.cleanup.None? && s.pc.Resting? && s.queue == {} && s.prepared == map[]
  }

  /** A stale claim on a quiet vBucket loses everything acknowledged so far, through
      checks that all pass. */
  lemma StaleClaimLosesEverything(s: Sys, check: (ShardId, ShardId)) returns (run: seq<Event>)
    requires Lossless(s) && s.Rows(s.row.owner) != map[] && Quiet(s) && check in s.checks && check.1 == s.row.owner
    ensures run == [Claim(check)] + LoseAll
    ensures !Lossless(From(s, run)) && From(s, run).row.owner == s.row.owner && From(s, run).Rows(s.row.owner) == map[]
  {
    var three := [GoOn, GoOn, GoOn];
    var s1 := Next(s, Claim(check));
    FromStep(s, [], Claim(check));
    assert [] + [Claim(check)] == [Claim(check)];
    var s2 := OntoItselfReachesCutover(s1);
    FromJoin(s, [Claim(check)], three);
    var s3 := OntoItselfPassesTheChecks(s2);
    FromJoin(s, [Claim(check)] + three, three);
    var s4 := OntoItselfDeletes(s3);
    FromJoin(s, [Claim(check)] + three + three, three);
    run := [Claim(check)] + three + three + three + [GoOn];
    FromStep(s, [Claim(check)] + three + three + three, GoOn);
    assert run == [Claim(check)] + LoseAll;
  }

  const LoseAll: seq<Event> := [GoOn, GoOn, GoOn, GoOn, GoOn, GoOn, GoOn, GoOn, GoOn, GoOn]

  /** Without claims and deliveries a shard without strays stays without strays. */
  lemma {:induction false} TicksAreClean(s: Sys, run: seq<Event>, shard: ShardId)
    requires NoStray(s, shard) && forall n: nat | n < |run| :: run[n] == GoOn
    ensures NoStray(From(s, run), shard)
  {
    if run != [] {
      var n := |run| - 1;
      TicksAreClean(s, run[..n], shard);
      var at := From(s, run[..n]);
      assert run[n] == GoOn;
      TickLeavesJobs(at);
      NoNewStray(at, Next(at, GoOn), shard);
    }
  }

  lemma TickLeavesJobs(s: Sys)
    ensures var s' := Next(s, GoOn); s'.jobs == s.jobs && s'.queue <= s.queue && s'.wire == s.wire && s'.applied == s.applied
  {
  }

  predicate HasTarget(pc: Pc) {
    !pc.Resting? && !pc.AbortClearing? && !pc.CleanupDeleting? && !pc.CleanupUnfencing? && !pc.CleanupClearing?
  }

  /** Row and tick name this one shard everywhere. */
  predicate AllOne(s: Sys, shard: ShardId) {
    && s.row.owner == shard && s.row.target == shard && (s.row.cleanup.Some? ==> s.row.cleanup.value == shard)
    && (HasTarget(s.pc) ==> s.pc.source == shard && s.pc.target == shard)
    && (s.pc.CleanupDeleting? || s.pc.CleanupUnfencing? || s.pc.CleanupClearing? ==> s.pc.source == shard)
  }

  lemma MovingStaysOne(s: Sys, shard: ShardId)
    requires AllOne(s, shard)
    ensures AllOne(RestingTick(s, true), shard) || !s.pc.Resting?
    ensures AllOne(BackfillTick(s, Answered, {}, false), shard) && AllOne(FenceTick(s, Answered), shard)
  {
  }

  lemma FlippingStaysOne(s: Sys, shard: ShardId)
    requires AllOne(s, shard)
    ensures AllOne(FlipTick(s, Answered, true), shard)
  {
  }

  lemma UndoingStaysOne(s: Sys, shard: ShardId)
    requires AllOne(s, shard)
    ensures AllOne(RewindTick(s, Answered), shard) && AllOne(CleanupTick(s, Answered), shard) && AllOne(AbortTick(s, Answered), shard)
  {
  }

  lemma {:induction false} TicksStayOne(s: Sys, run: seq<Event>, shard: ShardId)
    requires AllOne(s, shard) && forall n: nat | n < |run| :: run[n] == GoOn
    ensures AllOne(From(s, run), shard)
  {
    if run != [] {
      var at := From(s, run[..|run| - 1]);
      TicksStayOne(s, run[..|run| - 1], shard);
      assert run[|run| - 1] == GoOn;
      MovingStaysOne(at, shard);
      FlippingStaysOne(at, shard);
      UndoingStaysOne(at, shard);
    }
  }

  lemma {:induction false} StaleRunIsInOrder(s: Sys)
    requires NoStray(s, s.row.owner) && s.row.target == s.row.owner && s.row.cleanup.None? && s.pc.Resting?
    ensures ClaimsAreFresh(s, LoseAll) && ChecksAreClean(s, LoseAll, 0)
  {
    forall n: nat | n < |LoseAll| ensures ClaimIsFresh(From(s, LoseAll[..n]), LoseAll[n]) && CheckIsClean(From(s, LoseAll[..n]), LoseAll[n]) {
      TicksAreClean(s, LoseAll[..n], s.row.owner);
      TicksStayOne(s, LoseAll[..n], s.row.owner);
    }
  }

  /** startMigration compares the target with the owner it read before an await, and the
      claim compares nothing. Whatever it compared, the claim of a quiet vBucket goes
      through; and nothing is lost in any later run that is in order if and only if the
      target is not, by then, the owner. */
  lemma {:induction false} ClaimIsLosslessIff(s: Sys, check: (ShardId, ShardId))
    requires Inv(s) && Safe(s) && Quiet(s) && s.Rows(s.row.owner) != map[] && check in s.checks
    ensures Next(s, Claim(check)).row.status == Backfilling && Next(s, Claim(check)).row.target == check.1
    ensures var s' := Next(s, Claim(check));
      (forall run | ClaimsAreFresh(s', run) && ChecksAreClean(s', run, 0) :: Lossless(From(s', run))) <==> check.1 != s.row.owner
  {
    var s' := Next(s, Claim(check));
    if check.1 != s.row.owner {
      NextKeepsInv(s, Claim(check));
      NextKeepsSafe(s, Claim(check));
      forall run | ClaimsAreFresh(s', run) && ChecksAreClean(s', run, 0) ensures Lossless(From(s', run)) { RunKeepsSafe(s', run, 0); }
    } else {
      var run := StaleClaimLosesEverything(s, check);
      FromStep(s, [], Claim(check));
      assert [] + [Claim(check)] == [Claim(check)];
      FromJoin(s, [Claim(check)], LoseAll);
      NoNewStray(s, s', s.row.owner);
      StaleRunIsInOrder(s');
    }
  }

  // ---- a cutover that cannot end ----

  /** A queued mirror that the target rejects, and nothing else that could change the
      target: the source is fenced and every outstanding mirror fails there too. */
  ghost predicate Wedged(s: Sys, id: nat, rows: Content) {
    && Inv(s) && s.row.status == Cutover && s.prepared == map[] && s.Rows(s.row.target) == rows
    && (s.pc.Resting? || s.pc.Fencing? || s.pc.Draining?) && s.row.owner in s.fenced
    && id < |s.jobs| && id in s.queue && s.jobs[id].source == s.row.owner && s.jobs[id].target == s.row.target
    && (forall j: nat | j < |s.jobs| && (j in s.queue || j in s.wire) && s.jobs[j].target == s.row.target ::
          j !in s.applied && s.jobs[j].stmt(rows).Failed?)
  }

  lemma WedgedTick(s: Sys, id: nat, rows: Content, e: Event)
    requires Wedged(s, id, rows) && e.Tick?
    ensures Wedged(Next(s, e), id, rows) && Next(s, e).row == s.row
  {
    NextKeepsInv(s, e);
    assert id in Queued(s, s.row.owner);
  }

  lemma WedgedStep(s: Sys, id: nat, rows: Content, e: Event)
    requires Wedged(s, id, rows) && !e.RequestAbort?
    ensures Wedged(Next(s, e), id, rows) && Next(s, e).row == s.row
  {
    if e.Tick? { WedgedTick(s, id, rows, e); }
    else if e.Claim? { assert Next(s, e) == s; }
    else {
      assert Next(s, e).row == s.row;
      NextKeepsInv(s, e);
    }
  }

  /** Such a cutover stays a cutover in every run without an operator's abort: the flip
      never comes, and the source stays fenced to writes. */
  lemma {:induction false} WedgedForGood(s: Sys, id: nat, rows: Content, run: seq<Event>)
    requires Wedged(s, id, rows) && forall n: nat | n < |run| :: !run[n].RequestAbort?
    ensures Wedged(From(s, run), id, rows) && From(s, run).row == s.row
  {
    if run != [] {
      var n := |run| - 1;
      WedgedForGood(s, id, rows, run[..n]);
      WedgedStep(From(s, run[..n]), id, rows, run[n]);
    }
  }

  ghost predicate Inserts(stmt: Stmt, key: Key, row: Row) {
    forall c: Content :: stmt(c) == if key in c then Failed else Touched(c[key := row])
  }

  /** A row inserted while the backfill runs, its mirror queued. */
  lemma CanInsert(source: ShardId, target: ShardId, insert: Stmt, key: Key, row: Row) returns (s: Sys)
    requires source != target && Inserts(insert, key, row)
    ensures CanReach(source, s)
    ensures s == Sys(MapRow(source, Backfilling, target, None), Resting, {(source, target)}, map[source := map[key := row]], {},
                     {Route(source, Some(target))}, [Job(source, target, insert)], {0}, {}, {}, map[], [insert])
  {
    StartIsReached(source);
    s := Take(source, Start(source), CheckStart(target));
    s := Take(source, s, Claim((source, target)));
    s := Take(source, s, RouteWrite);
    s := Take(source, s, ArriveWrite(Route(source, Some(target)), insert));
    assert map[][key := row] == map[key := row];
  }

  /** The backfill copies the row before the mirror is delivered. */
  lemma CanCopyFirst(source: ShardId, target: ShardId, insert: Stmt, key: Key, row: Row) returns (s: Sys)
    requires source != target && Inserts(insert, key, row)
    ensures CanReach(source, s)
    ensures s == Sys(MapRow(source, Backfilling, target, None), Exporting(source, target), {(source, target)},
                     map[source := map[key := row], target := map[key := row]], {},
                     {Route(source, Some(target))}, [Job(source, target, insert)], {0}, {}, {}, map[], [insert])
  {
    s := CanInsert(source, target, insert, key, row);
    s := Take(source, s, GoOn);
    s := Take(source, s, Tick(Answered, {key}, true, true));
    assert s.pc.page == map[key := row] && map[] + s.pc.page == s.pc.page;
    s := Take(source, s, GoOn);
  }

  /** From the start of the system, one insert during the backfill is enough: its mirror
      is refused as a duplicate for ever and the cutover waits for it for ever. */
  lemma CanWedge(source: ShardId, target: ShardId, insert: Stmt, key: Key, row: Row) returns (s: Sys)
    requires source != target && Inserts(insert, key, row)
    ensures CanReach(source, s) && Wedged(s, 0, map[key := row]) && s.Rows(source) == s.Rows(target)
  {
    s := CanCopyFirst(source, target, insert, key, row);
    s := Take(source, s, GoOn);
    s := Take(source, s, GoOn);
  }
}
