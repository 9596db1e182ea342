/** What can still reach the shard an abort or a cleanup has wiped, and exactly when
    nothing can. */
module MigrationStragglers {
  import opened Basics
  import opened MigrationSpec
  import opened Migration
  import opened MigrationLimits
  import opened MigrationEnds
  import opened MigrationLeftovers

  // ---- job numbers ----

  predicate JobsExist(s: Sys) {
    && (forall id | id in s.queue :: id < |s.jobs|)
    && (forall id | id in s.wire :: id < |s.jobs|)
    && (forall id | id in s.applied :: id < |s.jobs|)
  }

  lemma TickKeepsJobs(s: Sys, e: Event)
    requires JobsExist(s) && e.Tick?
    ensures JobsExist(Next(s, e))
  {
    CopyLeavesQueue(s, e.reply, e.page, e.more, e.lockHeld);
    UndoLeavesQueue(s, e.reply);
  }

  lemma StepKeepsJobs(s: Sys, e: Event)
    requires JobsExist(s)
    ensures JobsExist(Next(s, e))
  {
    if e.Tick? { TickKeepsJobs(s, e); }
  }

  lemma {:induction false} RunKeepsJobs(s: Sys, run: seq<Event>)
    requires JobsExist(s)
    ensures JobsExist(From(s, run))
  {
    if run != [] {
      RunKeepsJobs(s, run[..|run| - 1]);
      StepKeepsJobs(From(s, run[..|run| - 1]), run[|run| - 1]);
    }
  }

  // ---- nothing more to come ----

  /** Run on an empty shard the statement leaves it empty. */
  predicate Harmless(stmt: Stmt) { Run(stmt, map[]).Keys == {} }

  ghost predicate CanTouch(stmt: Stmt) { exists c: Content :: stmt(c).Touched? }

  /** No mirror that would put a row on the empty `shard` is outstanding; no write still
      carries a route that mirrors there; no prepared intent would enqueue such a mirror. */
  ghost predicate Settled(s: Sys, shard: ShardId) {
    && (forall id: nat | Outstanding(s, id) && s.jobs[id].target == shard && id !in s.applied :: Harmless(s.jobs[id].stmt))
    && (forall r | r in s.routes :: r.mirror != Some(shard))
    && (forall id | id in s.prepared && s.prepared[id].mirror == Some(shard) && CanTouch(s.prepared[id].stmt) :: Harmless(s.prepared[id].stmt))
  }

  /** No migration, no cleanup, and `shard` is empty and not the owner: what an abort and a
      cleanup aim at. */
  ghost predicate Over(s: Sys, shard: ShardId) {
    && Inv(s) && JobsExist(s) && s.row.status == NoMigration && s.row.cleanup.None? && s.pc.Resting?
    && shard != s.row.owner && s.Rows(shard) == map[]
  }

  predicate ClaimsNothing(run: seq<Event>) { forall i | 0 <= i < |run| :: !run[i].Claim? }

  lemma LandingStaysSettled(s: Sys, e: Event, shard: ShardId)
    requires Over(s, shard) && Settled(s, shard) && e.Land?
    ensures Over(Next(s, e), shard) && Settled(Next(s, e), shard)
  {
    NextKeepsInv(s, e);
    if e.job in s.wire && s.jobs[e.job].target == shard && e.job !in s.applied {
      assert Outstanding(s, e.job) && Harmless(s.jobs[e.job].stmt);
      assert Run(s.jobs[e.job].stmt, map[]) == map[];
    }
    forall id: nat | Outstanding(Next(s, e), id) ensures Outstanding(s, id) {}
  }

  lemma WriteStaysSettled(s: Sys, at: ShardId, stmt: Stmt, mirror: Option<ShardId>, shard: ShardId)
    requires JobsExist(s) && Settled(s, shard) && at != shard && s.Rows(shard) == map[]
    requires mirror == Some(shard) && CanTouch(stmt) ==> Harmless(stmt)
    ensures var s' := Apply(s, at, stmt, mirror); JobsExist(s') && Settled(s', shard) && s'.Rows(shard) == map[]
  {
    var s' := Apply(s, at, stmt, mirror);
    forall id: nat | Outstanding(s', id) && s'.jobs[id].target == shard && id !in s'.applied ensures Harmless(s'.jobs[id].stmt) {
      if id < |s.jobs| {
        assert s'.jobs[id] == s.jobs[id];
        assert Outstanding(s, id);
      } else {
        assert stmt(s.Rows(at)).Touched?;
      }
    }
  }

  lemma ArrivalStaysSettled(s: Sys, e: Event, shard: ShardId)
    requires Over(s, shard) && Settled(s, shard) && e.ArriveWrite?
    ensures Over(Next(s, e), shard) && Settled(Next(s, e), shard)
  {
    NextKeepsInv(s, e);
    if e.route in s.routes && e.route.shard !in s.fenced {
      assert RouteOk(s, e.route);
      WriteStaysSettled(s, e.route.shard, e.stmt, e.route.mirror, shard);
    }
  }

  lemma CommitStaysSettled(s: Sys, e: Event, shard: ShardId)
    requires Over(s, shard) && Settled(s, shard) && e.CommitIntent?
    ensures Over(Next(s, e), shard) && Settled(Next(s, e), shard)
  {
    NextKeepsInv(s, e);
    if e.id in s.prepared {
      var rest := s.(prepared := s.prepared - {e.id});
      assert forall id: nat | Outstanding(rest, id) :: Outstanding(s, id);
      WriteStaysSettled(rest, s.row.owner, s.prepared[e.id].stmt, s.prepared[e.id].mirror, shard);
    }
  }

  lemma OthersStaySettled(s: Sys, e: Event, shard: ShardId)
    requires Over(s, shard) && Settled(s, shard) && !e.Claim? && !e.Land? && !e.ArriveWrite? && !e.CommitIntent?
    ensures Over(Next(s, e), shard) && Settled(Next(s, e), shard)
  {
    NextKeepsInv(s, e);
    forall id: nat | Outstanding(Next(s, e), id) ensures Outstanding(s, id) {}
  }

  lemma StepStaysSettled(s: Sys, e: Event, shard: ShardId)
    requires Over(s, shard) && Settled(s, shard) && !e.Claim?
    ensures Over(Next(s, e), shard) && Settled(Next(s, e), shard)
  {
    if e.Land? { LandingStaysSettled(s, e, shard); }
    else if e.ArriveWrite? { ArrivalStaysSettled(s, e, shard); }
    else if e.CommitIntent? { CommitStaysSettled(s, e, shard); }
    else { OthersStaySettled(s, e, shard); }
  }

  lemma {:induction false} StaysSettled(s: Sys, run: seq<Event>, shard: ShardId)
    requires Over(s, shard) && Settled(s, shard) && ClaimsNothing(run)
    ensures Over(From(s, run), shard) && Settled(From(s, run), shard)
  {
    if run != [] {
      var before := run[..|run| - 1];
      assert forall i | 0 <= i < |before| :: before[i] == run[i];
      StaysSettled(s, before, shard);
      StepStaysSettled(From(s, before), run[|run| - 1], shard);
    }
  }

  // ---- something more to come ----

  lemma {:induction false} OneMore(s: Sys, run: seq<Event>, e: Event) returns (longer: seq<Event>)
    requires ClaimsNothing(run) && !e.Claim?
    ensures ClaimsNothing(longer) && From(s, longer) == Next(From(s, run), e)
  {
    longer := run + [e];
    FromStep(s, run, e);
  }

  /** An outstanding mirror is sent and lands. */
  lemma MirrorLands(s: Sys, run: seq<Event>, id: nat, shard: ShardId) returns (longer: seq<Event>)
    requires ClaimsNothing(run)
    requires var s' := From(s, run);
      && Outstanding(s', id) && s'.jobs[id].target == shard && id !in s'.applied
      && s'.Rows(shard) == map[] && !Harmless(s'.jobs[id].stmt)
    ensures ClaimsNothing(longer) && From(s, longer).Rows(shard) != map[]
  {
    longer := OneMore(s, run, BeginDelivery(id));
    longer := OneMore(s, longer, Land(id));
  }

  /** A write that carries the old route arrives, and its mirror is delivered. */
  lemma OldRouteReaches(s: Sys, r: Route, shard: ShardId) returns (run: seq<Event>)
    requires Over(s, shard) && r in s.routes && r.mirror == Some(shard)
    ensures ClaimsNothing(run) && From(s, run).Rows(shard) != map[]
  {
    assert RouteOk(s, r);
    assert s.row.owner in s.fenced ==> FenceOk(s, s.row.owner);
    var put: Stmt := (_: Content) => Touched(map[Key("t", "1") := map[]]);
    assert From(s, []) == s;
    run := OneMore(s, [], ArriveWrite(r, put));
    assert Key("t", "1") in Run(put, map[]).Keys;
    run := MirrorLands(s, run, |s.jobs|, shard);
  }

  /** The owner's rows become whatever a client makes of them. */
  lemma ClientWrites(s: Sys, c: Content, shard: ShardId) returns (run: seq<Event>)
    requires Over(s, shard)
    ensures ClaimsNothing(run)
    ensures var s' := From(s, run);
      && s'.row == s.row && s'.Rows(s.row.owner) == c && s'.Rows(shard) == map[]
      && s'.prepared == s.prepared && s'.jobs == s.jobs && s'.queue == s.queue && s'.applied == s.applied
  {
    assert s.row.owner in s.fenced ==> FenceOk(s, s.row.owner);
    assert From(s, []) == s;
    run := OneMore(s, [], RouteWrite);
    run := OneMore(s, run, ArriveWrite(Route(s.row.owner, None), (_: Content) => Touched(c)));
  }

  /** A prepared intent commits, and its mirror is delivered. */
  lemma IntentReaches(s: Sys, id: nat, shard: ShardId) returns (run: seq<Event>)
    requires Over(s, shard) && id in s.prepared && s.prepared[id].mirror == Some(shard)
    requires CanTouch(s.prepared[id].stmt) && !Harmless(s.prepared[id].stmt)
    ensures ClaimsNothing(run) && From(s, run).Rows(shard) != map[]
  {
    var c: Content :| s.prepared[id].stmt(c).Touched?;
    run := ClientWrites(s, c, shard);
    run := OneMore(s, run, CommitIntent(id));
    run := MirrorLands(s, run, |s.jobs|, shard);
  }

  lemma UnsettledIsReached(s: Sys, shard: ShardId) returns (run: seq<Event>)
    requires Over(s, shard) && !Settled(s, shard)
    ensures ClaimsNothing(run) && From(s, run).Rows(shard) != map[]
  {
    if r :| r in s.routes && r.mirror == Some(shard) { run := OldRouteReaches(s, r, shard); }
    else if id :| id in s.prepared && s.prepared[id].mirror == Some(shard) && CanTouch(s.prepared[id].stmt) && !Harmless(s.prepared[id].stmt) {
      run := IntentReaches(s, id, shard);
    } else {
      var id: nat :| Outstanding(s, id) && s.jobs[id].target == shard && id !in s.applied && !Harmless(s.jobs[id].stmt);
      assert From(s, []) == s;
      run := MirrorLands(s, [], id, shard);
    }
  }

  /** A wiped shard stays empty until another migration is claimed if and only if nothing
      was left that mirrors to it: the purge reaches only what was queued before it. */
  lemma {:induction false} StaysEmptyIff(s: Sys, shard: ShardId)
    requires Over(s, shard)
    ensures Settled(s, shard) <==> forall run | ClaimsNothing(run) :: From(s, run).Rows(shard) == map[]
  {
    if Settled(s, shard) {
      forall run | ClaimsNothing(run) ensures From(s, run).Rows(shard) == map[] { StaysSettled(s, run, shard); }
    } else {
      var run := UnsettledIsReached(s, shard);
    }
  }

  lemma {:induction false} AbortEndsInOrder(owner: ShardId, run: seq<Event>, e: Event)
    requires ClaimsAreFresh(Start(owner), run)
    requires After(owner, run).row.status == Aborting && Next(After(owner, run), e).row.status != Aborting
    ensures var s' := Next(After(owner, run), e); Inv(s') && JobsExist(s')
  {
    RunKeepsInv(Start(owner), run);
    RunKeepsJobs(Start(owner), run);
    var s := After(owner, run);
    NextKeepsInv(s, e);
    StepKeepsJobs(s, e);
  }

  /** In every run an abort that ends with an empty target keeps it empty, until the next
      claim, if and only if nothing was left that mirrors there. */
  lemma {:induction false} AbortedStaysEmptyIff(owner: ShardId, run: seq<Event>, e: Event)
    requires ClaimsAreFresh(Start(owner), run)
    requires After(owner, run).row.status == Aborting && Next(After(owner, run), e).row.status != Aborting
    ensures var s' := Next(After(owner, run), e); var target := s'.row.target; s'.Rows(target) == map[] ==>
      (Settled(s', target) <==> forall more | ClaimsNothing(more) :: From(s', more).Rows(target) == map[])
  {
    RunKeepsInv(Start(owner), run);
    AbortEndsInOrder(owner, run, e);
    AbortEndsClearing(owner, run, e);
    var s' := Next(After(owner, run), e);
    if s'.Rows(s'.row.target) == map[] { StaysEmptyIff(s', s'.row.target); }
  }

  // ---- and that does happen ----

  function Asked(source: ShardId, target: ShardId, put: Stmt, c: Content, pc: Pc): Sys {
    Sys(MapRow(source, Aborting, target, None), pc, {(source, target)}, map[source := c], {},
        {Route(source, None), Route(source, Some(target))}, [], {}, {}, {}, map[], [put])
  }

  /** A write is routed during the migration, then the abort begins. */
  lemma CanAsk(source: ShardId, target: ShardId, put: Stmt, c: Content) returns (s: Sys)
    requires source != target && Puts(put, c)
    ensures CanReach(source, s) && s == Asked(source, target, put, c, AbortUnfencing(source, target))
  {
    s := CanStart(source, target, put, c);
    s := Take(source, s, RouteWrite);
    s := Take(source, s, RequestAbort);
  }

  lemma CanUnfence(source: ShardId, target: ShardId, put: Stmt, c: Content) returns (s: Sys)
    requires source != target && Puts(put, c)
    ensures CanReach(source, s) && s == Asked(source, target, put, c, AbortPurging(source, target))
  {
    s := CanAsk(source, target, put, c);
    s := Take(source, s, GoOn);
  }

  lemma CanPurge(source: ShardId, target: ShardId, put: Stmt, c: Content) returns (s: Sys)
    requires source != target && Puts(put, c)
    ensures CanReach(source, s) && s == Asked(source, target, put, c, AbortWiping(source, target))
  {
    s := CanUnfence(source, target, put, c);
    s := Take(source, s, GoOn);
  }

  function Late(source: ShardId, target: ShardId, put: Stmt, c: Content, pc: Pc): Sys {
    Asked(source, target, put, c, pc).(jobs := [Job(source, target, put)], queue := {0}, acked := [put, put])
  }

  /** The write arrives after the purge. */
  lemma CanArrive(source: ShardId, target: ShardId, put: Stmt, c: Content) returns (s: Sys)
    requires source != target && Puts(put, c)
    ensures CanReach(source, s) && s == Late(source, target, put, c, AbortWiping(source, target))
  {
    s := CanPurge(source, target, put, c);
    s := Take(source, s, ArriveWrite(Route(source, Some(target)), put));
  }

  lemma CanWipe(source: ShardId, target: ShardId, put: Stmt, c: Content) returns (s: Sys)
    requires source != target && Puts(put, c)
    ensures CanReach(source, s)
    ensures s == Late(source, target, put, c, AbortClearing).(rows := map[source := c, target := map[]])
  {
    s := CanArrive(source, target, put, c);
    assert Queued(s, target) == {};
    s := Take(source, s, GoOn);
  }

  /** The abort then wipes the target and ends. */
  lemma CanQueueAfterThePurge(source: ShardId, target: ShardId, put: Stmt, c: Content) returns (s: Sys)
    requires source != target && Puts(put, c)
    ensures CanReach(source, s)
    ensures s == Late(source, target, put, c, Resting).(row := MapRow(source, NoMigration, target, None), rows := map[source := c, target := map[]])
  {
    s := CanWipe(source, target, put, c);
    s := Take(source, s, GoOn);
  }

  /** So a completed abort can leave a mirror behind, and the mirror then puts rows of a
      vBucket that is not migrating on a shard that does not own it. */
  lemma AbortCanLeaveAMirror(source: ShardId, target: ShardId, put: Stmt, c: Content) returns (ended: Sys, s: Sys)
    requires source != target && Puts(put, c) && c != map[]
    ensures CanReach(source, ended) && ended.row == MapRow(source, NoMigration, target, None) && ended.pc == Resting
    ensures ended.Rows(target) == map[] && Queued(ended, source) == {0}
    ensures s == Next(Next(ended, BeginDelivery(0)), Land(0)) && CanReach(source, s)
    ensures s.row == ended.row && s.pc == Resting && s.Rows(target) == c
  {
    ended := CanQueueAfterThePurge(source, target, put, c);
    assert 0 in Queued(ended, source);
    s := Take(source, ended, BeginDelivery(0));
    s := Take(source, s, Land(0));
  }
}
