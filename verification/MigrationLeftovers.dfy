/** How an abort, a rewind and the cleanup after a flip end, and what they leave behind on
    the shard they wipe. */
module MigrationLeftovers {
  import opened Basics
  import opened MigrationSpec
  import opened Migration
  import opened MigrationLimits
  import opened MigrationEnds

  // ---- they end ----

  /** Remote calls, and the last update of the row, still ahead. */
  function StepsLeft(pc: Pc): nat {
    match pc
    case AbortUnfencing(_, _) => 4
    case AbortPurging(_, _) => 3
    case AbortWiping(_, _) => 2
    case AbortClearing => 1
    case RewindUnfencing(_, _) => 3
    case RewindPurging(_, _) => 2
    case RewindWiping(_, _) => 1
    case CleanupDeleting(_) => 3
    case CleanupUnfencing(_) => 2
    case CleanupClearing(_) => 1
    case _ => 0
  }

  /** No crash, and every call answered; clients and deliveries do as they like. */
  predicate Steady(run: seq<Event>) { forall i | 0 <= i < |run| :: !run[i].Crash? && (run[i].Tick? ==> run[i].reply == Answered) }

  function Ticks(run: seq<Event>): nat {
    if run == [] then 0 else Ticks(run[..|run| - 1]) + if run[|run| - 1].Tick? then 1 else 0
  }

  lemma AnsweredTickAdvances(s: Sys, e: Event)
    requires Inv(s) && StepsLeft(s.pc) > 1 && e.Tick? && e.reply == Answered
    ensures Inv(Next(s, e)) && Next(s, e).row == s.row && StepsLeft(Next(s, e).pc) == StepsLeft(s.pc) - 1
  {
    NextKeepsInv(s, e);
  }

  lemma OthersWait(s: Sys, e: Event)
    requires Inv(s) && StepsLeft(s.pc) > 0 && !e.Tick? && !e.Crash?
    ensures Inv(Next(s, e)) && Next(s, e).row == s.row && Next(s, e).pc == s.pc
  {
    if e.Claim? { assert Next(s, e) == s; } else { NextKeepsInv(s, e); }
  }

  /** As long as the calls are answered each tick does one step, and nothing clients, mirrors
      or other operators do meanwhile undoes or delays one. */
  lemma {:induction false} SteadyRunAdvances(s: Sys, run: seq<Event>)
    requires Inv(s) && Steady(run) && Ticks(run) < StepsLeft(s.pc)
    ensures var s' := From(s, run); Inv(s') && s'.row == s.row && StepsLeft(s'.pc) == StepsLeft(s.pc) - Ticks(run)
  {
    if run != [] {
      var before := run[..|run| - 1];
      assert forall i | 0 <= i < |before| :: before[i] == run[i];
      SteadyRunAdvances(s, before);
      var e := run[|run| - 1];
      if e.Tick? { AnsweredTickAdvances(From(s, before), e); } else { OthersWait(From(s, before), e); }
    }
  }

  /** Four answered calls after a requested abort the migration is over: the owner has not
      moved and is not fenced. An abort interrupted earlier is resumed the same way. */
  lemma {:induction false} AbortEnds(s: Sys, run: seq<Event>, last: Event)
    requires Inv(s) && s.pc.Resting? && s.row.status != NoMigration
    requires Steady(run) && Ticks(run) == 3 && last.Tick? && last.reply == Answered
    ensures var s' := Next(From(Next(s, RequestAbort), run), last);
      && s'.row == MapRow(s.row.owner, NoMigration, s.row.target, None) && s'.pc == Resting && s'.row.owner !in s'.fenced
  {
    var asked := Next(s, RequestAbort);
    NextKeepsInv(s, RequestAbort);
    SteadyRunAdvances(asked, run);
    var at := From(asked, run);
    NextKeepsInv(at, last);
    var s' := Next(at, last);
    assert s'.row.owner in s'.fenced ==> FenceOk(s', s'.row.owner);
  }

  /** The latch is always given back, by a crash at the latest. */
  lemma AbortCanStart(s: Sys)
    requires Inv(s) && s.row.status != NoMigration
    ensures Next(Next(s, Crash), RequestAbort).pc == AbortUnfencing(s.row.owner, s.row.target)
    ensures Next(Next(s, Crash), RequestAbort).row == s.row.(status := Aborting)
  {
  }

  /** Three answered calls after a mismatch the copy starts again. */
  lemma {:induction false} RewindEnds(s: Sys, run: seq<Event>, last: Event)
    requires Inv(s) && s.pc.RewindUnfencing? && Steady(run) && Ticks(run) == 2 && last.Tick? && last.reply == Answered
    ensures var s' := Next(From(s, run), last);
      s'.row == MapRow(s.row.owner, Backfilling, s.row.target, None) && s'.pc == Resting && s'.row.owner !in s'.fenced
  {
    SteadyRunAdvances(s, run);
    NextKeepsInv(From(s, run), last);
    var s' := Next(From(s, run), last);
    assert s'.row.owner in s'.fenced ==> FenceOk(s', s'.row.owner);
  }

  /** Three answered calls after the flip nothing is owed any more and nothing is fenced. */
  lemma {:induction false} CleanupEnds(s: Sys, run: seq<Event>, last: Event)
    requires Inv(s) && s.pc.CleanupDeleting? && Steady(run) && Ticks(run) == 2 && last.Tick? && last.reply == Answered
    ensures var s' := Next(From(s, run), last); s'.row == s.row.(cleanup := None) && s'.pc == Resting && s'.fenced == {}
  {
    SteadyRunAdvances(s, run);
    NextKeepsInv(From(s, run), last);
    var s' := Next(From(s, run), last);
    assert forall x | x in s'.fenced :: FenceOk(s', x);
  }

  /** A cleanup that was cut short is taken up again by the next tick, with or without the
      lock. */
  lemma CleanupResumes(s: Sys, e: Event)
    requires s.row.cleanup.Some? && e.Tick?
    ensures Next(Next(s, Crash), e) == s.(pc := CleanupDeleting(s.row.cleanup.value))
  {
  }

  lemma {:induction false} OneResolution(s: Sys, run: seq<Event>, id: nat) returns (longer: seq<Event>)
    requires forall i | 0 <= i < |run| :: run[i].AbortIntent?
    ensures From(s, longer) == From(s, run).(prepared := From(s, run).prepared - {id})
    ensures forall i | 0 <= i < |longer| :: longer[i].AbortIntent?
  {
    longer := run + [AbortIntent(id)];
    FromStep(s, run, AbortIntent(id));
  }

  /** Prepared intents can always be resolved: they do not hold up a cutover for ever. */
  lemma {:induction false} IntentsCanEnd(s: Sys, before: seq<Event>) returns (run: seq<Event>)
    requires forall i | 0 <= i < |before| :: before[i].AbortIntent?
    ensures From(s, run) == From(s, before).(prepared := map[])
    ensures forall i | 0 <= i < |run| :: run[i].AbortIntent?
    decreases |From(s, before).prepared|
  {
    var at := From(s, before);
    if at.prepared == map[] { run := before; }
    else {
      var id :| id in at.prepared;
      var longer := OneResolution(s, before, id);
      assert |at.prepared - {id}| < |at.prepared| by { assert (at.prepared - {id}).Keys == at.prepared.Keys - {id}; }
      run := IntentsCanEnd(s, longer);
    }
  }

  // ---- a tick that cannot go on ----

  /** A check of the tick fails: mirrors still queued, an intent still prepared, the row
      changed, or the lock lost just before the flip. */
  predicate CheckFails(s: Sys, lockHeld: bool) {
    || (s.pc.Draining? && Queued(s, s.pc.source) != {})
    || (s.pc.Counting? && HasPrepared(s, s.pc.source))
    || ((s.pc.Comparing? || s.pc.ConfirmingLock?) && !StillCutover(s.row, s.pc.source, s.pc.target))
    || (s.pc.ConfirmingLock? && !lockHeld)
  }

  lemma FailedCheckEndsTheTick(s: Sys, e: Event)
    requires e.Tick? && CheckFails(s, e.lockHeld)
    ensures Next(s, e) == s.(pc := Resting)
  {
  }

  lemma LostCopyEndsTheTick(s: Sys, e: Event)
    requires e.Tick? && e.reply.Lost? && (s.pc.Exporting? || s.pc.Importing? || s.pc.Fencing? || s.pc.Draining? || s.pc.Counting?)
    ensures Next(s, e).pc == Resting && Next(s, e).row == s.row
  {
  }

  lemma LostFlipEndsTheTick(s: Sys, e: Event)
    requires e.Tick? && e.reply.Lost? && (s.pc.CheckingSource? || s.pc.CheckingTarget? || s.pc.ConfirmingLock?)
    ensures Next(s, e).pc == Resting && Next(s, e).row == s.row
  {
  }

  lemma LostUndoEndsTheTick(s: Sys, e: Event)
    requires e.Tick? && e.reply.Lost? && StepsLeft(s.pc) > 0
    ensures Next(s, e).pc == Resting && Next(s, e).row == s.row
  {
  }

  /** A call without an answer ends the tick with the row as it was, whatever it was about:
      the next tick starts from what is stored. */
  lemma LostCallEndsTheTick(s: Sys, e: Event)
    requires e.Tick? && e.reply.Lost? && !s.pc.Resting? && !s.pc.Comparing?
    ensures Next(s, e).pc == Resting && Next(s, e).row == s.row
  {
    if StepsLeft(s.pc) > 0 { LostUndoEndsTheTick(s, e); }
    else if s.pc.CheckingSource? || s.pc.CheckingTarget? || s.pc.ConfirmingLock? { LostFlipEndsTheTick(s, e); }
    else { LostCopyEndsTheTick(s, e); }
  }

  // ---- what they leave on the shard they wiped ----

  /** The mirror that this event makes `shard` run for the first time. */
  predicate Lands(s: Sys, e: Event, shard: ShardId) {
    e.Land? && e.job in s.wire && e.job < |s.jobs| && e.job !in s.applied && s.jobs[e.job].target == shard
  }

  /** The mirrors that reached `shard` after the first `k` events, in order. */
  function LandedSince(s: Sys, run: seq<Event>, k: nat, shard: ShardId): seq<Stmt> {
    if |run| <= k then []
    else
      var before := From(s, run[..|run| - 1]);
      var e := run[|run| - 1];
      LandedSince(s, run[..|run| - 1], k, shard) + if Lands(before, e, shard) then [before.jobs[e.job].stmt] else []
  }

  /** The shard that the operation under way has wiped already. */
  function Emptied(s: Sys): Option<ShardId> {
    if s.pc.AbortClearing? then Some(s.row.target)
    else if s.pc.CleanupUnfencing? || s.pc.CleanupClearing? then Some(s.pc.source)
    else None
  }

  /** The operation under way has dropped the owner's queued mirrors already. */
  predicate HasPurged(pc: Pc) { pc.AbortWiping? || pc.AbortClearing? || pc.RewindWiping? }

  /** At the `k`th event `shard` was empty with nothing of the vBucket queued, and the
      operation that emptied it is still the one under way. */
  ghost predicate WipedSince(s: Sys, run: seq<Event>, k: nat, shard: ShardId) {
    && k <= |run| && From(s, run[..k]).Rows(shard) == map[] && Queued(From(s, run[..k]), shard) == {}
    && forall n | k <= n <= |run| :: Emptied(From(s, run[..n])) == Some(shard)
  }

  lemma NoneIsQueued(s: Sys, shard: ShardId)
    ensures Queued(Purged(s, shard), shard) == {} && Queued(Wiped(s, shard), shard) == {}
  {
    assert Queued(Purged(s, shard), shard) <= Queued(s, shard);
    assert Queued(Wiped(s, shard), shard) <= Queued(s, shard);
  }

  predicate NotYet(s: Sys) { !HasPurged(s.pc) && Emptied(s).None? }

  /** Which tick can take an operation past its purge or its wipe. */
  lemma CopyingUndoesNothing(s: Sys, reply: Reply, page: set<Key>, more: bool, lockHeld: bool)
    ensures NotYet(s) ==> NotYet(RestingTick(s, lockHeld)) && NotYet(BackfillTick(s, reply, page, more))
  {
  }

  lemma FlippingUndoesNothing(s: Sys, reply: Reply, lockHeld: bool)
    ensures NotYet(s) ==> NotYet(FenceTick(s, reply)) && NotYet(FlipTick(s, reply, lockHeld))
  {
  }

  lemma WhoseUndo(s: Sys, reply: Reply)
    ensures HasPurged(RewindTick(s, reply).pc) && !HasPurged(s.pc) ==> s.pc.RewindPurging? && reply == Answered
    ensures Emptied(RewindTick(s, reply)).None? || Emptied(s).Some?
    ensures HasPurged(CleanupTick(s, reply).pc) ==> HasPurged(s.pc)
    ensures Emptied(CleanupTick(s, reply)).Some? && Emptied(s).None? ==> s.pc.CleanupDeleting? && reply == Answered
    ensures HasPurged(AbortTick(s, reply).pc) && !HasPurged(s.pc) ==> s.pc.AbortPurging? && reply == Answered
    ensures Emptied(AbortTick(s, reply)).Some? && Emptied(s).None? ==> s.pc.AbortWiping? && reply == Answered
  {
  }

  lemma WhoseStep(s: Sys, e: Event)
    ensures HasPurged(Next(s, e).pc) && !HasPurged(s.pc) ==> e == Tick(Answered, e.page, e.more, e.lockHeld) && (s.pc.RewindPurging? || s.pc.AbortPurging?)
    ensures Emptied(Next(s, e)).Some? && Emptied(s).None? ==> e == Tick(Answered, e.page, e.more, e.lockHeld) && (s.pc.CleanupDeleting? || s.pc.AbortWiping?)
  {
    if e.Tick? {
      CopyingUndoesNothing(s, e.reply, e.page, e.more, e.lockHeld);
      FlippingUndoesNothing(s, e.reply, e.lockHeld);
      WhoseUndo(s, e.reply);
    }
  }

  lemma WipeEmpties(s: Sys, e: Event)
    requires Inv(s) && Emptied(s).None? && Emptied(Next(s, e)).Some?
    ensures var s' := Next(s, e); var shard := Emptied(s').value; s'.Rows(shard) == map[] && Queued(s', shard) == {}
  {
    WhoseStep(s, e);
    var shard := if s.pc.AbortWiping? then s.pc.target else s.pc.source;
    NoneIsQueued(s, shard);
    var s' := Wiped(s, shard).(pc := if s.pc.AbortWiping? then AbortClearing else CleanupUnfencing(shard));
    assert Next(s, e) == s';
    assert Queued(s', shard) == Queued(Wiped(s, shard), shard);
  }

  lemma ApplySpares(s: Sys, shard: ShardId, stmt: Stmt, mirror: Option<ShardId>, other: ShardId)
    requires shard != other
    ensures Apply(s, shard, stmt, mirror).Rows(other) == s.Rows(other)
  {
  }

  lemma ArrivalSpares(s: Sys, e: Event, shard: ShardId)
    requires Inv(s) && shard != s.row.owner && e.ArriveWrite?
    ensures Next(s, e).Rows(shard) == s.Rows(shard)
  {
    if e.route in s.routes && e.route.shard !in s.fenced {
      assert RouteOk(s, e.route);
      ApplySpares(s, e.route.shard, e.stmt, e.route.mirror, shard);
    }
  }

  lemma CommitSpares(s: Sys, e: Event, shard: ShardId)
    requires Inv(s) && shard != s.row.owner && e.CommitIntent?
    ensures Next(s, e).Rows(shard) == s.Rows(shard)
  {
    if e.id in s.prepared && !s.prepared[e.id].stmt(s.Rows(s.prepared[e.id].shard)).Failed? {
      ApplySpares(s.(prepared := s.prepared - {e.id}), s.row.owner, s.prepared[e.id].stmt, s.prepared[e.id].mirror, shard);
    }
  }

  /** Clients reach the owner only. */
  lemma OnlyMirrorsArrive(s: Sys, e: Event)
    requires Inv(s) && Emptied(s).Some? && !e.Tick? && !e.Land?
    ensures Next(s, e).Rows(Emptied(s).value) == s.Rows(Emptied(s).value) && (e.Crash? || Emptied(Next(s, e)) == Emptied(s))
  {
    assert Emptied(s).value != s.row.owner;
    if e.ArriveWrite? { ArrivalSpares(s, e, Emptied(s).value); }
    if e.CommitIntent? { CommitSpares(s, e, Emptied(s).value); }
  }

  lemma TickStaysEmptied(s: Sys, e: Event)
    requires Inv(s) && Emptied(s).Some? && Emptied(Next(s, e)).Some? && e.Tick?
    ensures Emptied(Next(s, e)) == Emptied(s) && Next(s, e).Rows(Emptied(s).value) == s.Rows(Emptied(s).value)
  {
  }

  lemma LandsOrNot(s: Sys, e: Event, shard: ShardId)
    requires e.Land?
    ensures Next(s, e).pc == s.pc && Next(s, e).row == s.row
    ensures Next(s, e).Rows(shard) == if Lands(s, e, shard) then Run(s.jobs[e.job].stmt, s.Rows(shard)) else s.Rows(shard)
  {
  }

  lemma EmptiedStep(s: Sys, e: Event)
    requires Inv(s) && Emptied(s).Some? && Emptied(Next(s, e)).Some?
    ensures var shard := Emptied(s).value;
      && Emptied(Next(s, e)) == Some(shard)
      && Next(s, e).Rows(shard) == if Lands(s, e, shard) then Run(s.jobs[e.job].stmt, s.Rows(shard)) else s.Rows(shard)
  {
    if e.Tick? { TickStaysEmptied(s, e); }
    else if e.Land? { LandsOrNot(s, e, Emptied(s).value); }
    else { OnlyMirrorsArrive(s, e); }
  }

  ghost predicate HoldsLandings(s: Sys, run: seq<Event>, k: nat, shard: ShardId) {
    From(s, run).Rows(shard) == Replay(LandedSince(s, run, k, shard))
  }

  lemma {:induction false} WipedOneMore(s: Sys, run: seq<Event>, k: nat, shard: ShardId)
    requires run != [] && WipedSince(s, run[..|run| - 1], k, shard) && Emptied(From(s, run)) == Some(shard)
    ensures WipedSince(s, run, k, shard)
  {
    var n := |run| - 1;
    assert run[..n][..k] == run[..k] && run[..n + 1] == run;
    forall m | k <= m <= |run| ensures Emptied(From(s, run[..m])) == Some(shard) {
      if m <= n { assert run[..n][..m] == run[..m]; }
    }
  }

  lemma {:induction false} LandsOneMore(s: Sys, run: seq<Event>, k: nat, shard: ShardId)
    requires run != [] && k < |run| && HoldsLandings(s, run[..|run| - 1], k, shard)
    requires var before := From(s, run[..|run| - 1]); var e := run[|run| - 1]; var c := before.Rows(shard);
      From(s, run).Rows(shard) == if Lands(before, e, shard) then Run(before.jobs[e.job].stmt, c) else c
    ensures HoldsLandings(s, run, k, shard)
  {
    var n := |run| - 1;
    var before := From(s, run[..n]);
    var landed := LandedSince(s, run[..n], k, shard);
    if Lands(before, run[n], shard) { ReplayOne(landed, before.jobs[run[n].job].stmt); }
    else { assert LandedSince(s, run, k, shard) == landed + [] == landed; }
  }

  /** Between the wipe and the end of the operation the wiped shard holds exactly what the
      mirrors that landed since made of nothing. */
  lemma {:induction false} OnlyLandingsSince(s: Sys, run: seq<Event>) returns (k: nat)
    requires Inv(s) && Emptied(s).None? && ClaimsAreFresh(s, run) && Emptied(From(s, run)).Some?
    ensures var shard := Emptied(From(s, run)).value;
      WipedSince(s, run, k, shard) && HoldsLandings(s, run, k, shard)
  {
    var n := |run| - 1;
    PrefixIsFine(s, run, |run|);
    RunKeepsInv(s, run[..n]);
    var before := From(s, run[..n]);
    assert run[..n + 1] == run;
    if Emptied(before).None? {
      k := n + 1;
      WipeEmpties(before, run[n]);
    } else {
      EmptiedStep(before, run[n]);
      k := OnlyLandingsSince(s, run[..n]);
      WipedOneMore(s, run, k, Emptied(before).value);
      LandsOneMore(s, run, k, Emptied(before).value);
    }
  }

  /** The mirrors `shard` still had queued for the vBucket were dropped at the `k`th event. */
  ghost predicate PurgedSince(s: Sys, run: seq<Event>, k: nat, shard: ShardId) {
    && k <= |run| && Queued(From(s, run[..k]), shard) == {} && From(s, run[..k]).row == From(s, run).row
    && forall id | id in Queued(From(s, run), shard) :: id >= |From(s, run[..k]).jobs|
  }

  lemma PurgeEmpties(s: Sys, e: Event)
    requires Inv(s) && !HasPurged(s.pc) && HasPurged(Next(s, e).pc)
    ensures Queued(Next(s, e), s.row.owner) == {} && Next(s, e).row == s.row
  {
    WhoseStep(s, e);
    NoneIsQueued(s, s.row.owner);
    var pc := if s.pc.AbortPurging? then AbortWiping(s.pc.source, s.pc.target) else RewindWiping(s.pc.source, s.pc.target);
    var s' := Purged(s, s.row.owner).(pc := pc);
    assert Next(s, e) == s';
    assert Queued(s', s.row.owner) == Queued(Purged(s, s.row.owner), s.row.owner);
  }

  ghost predicate QueueGrowsAtTheEnd(s: Sys, s': Sys) {
    |s.jobs| <= |s'.jobs| && s'.jobs[..|s.jobs|] == s.jobs && forall id | id in s'.queue :: id in s.queue || id >= |s.jobs|
  }

  lemma ApplyQueues(s: Sys, shard: ShardId, stmt: Stmt, mirror: Option<ShardId>)
    ensures QueueGrowsAtTheEnd(s, Apply(s, shard, stmt, mirror))
  {
  }

  ghost predicate LeavesQueue(s: Sys, s': Sys) {
    s'.jobs == s.jobs && s'.queue <= s.queue && s'.wire == s.wire && s'.applied == s.applied
  }

  lemma CopyLeavesQueue(s: Sys, reply: Reply, page: set<Key>, more: bool, lockHeld: bool)
    ensures LeavesQueue(s, RestingTick(s, lockHeld)) && LeavesQueue(s, BackfillTick(s, reply, page, more))
    ensures LeavesQueue(s, FenceTick(s, reply)) && LeavesQueue(s, FlipTick(s, reply, lockHeld))
  {
  }

  lemma UndoLeavesQueue(s: Sys, reply: Reply)
    ensures LeavesQueue(s, RewindTick(s, reply)) && LeavesQueue(s, CleanupTick(s, reply)) && LeavesQueue(s, AbortTick(s, reply))
  {
  }

  lemma StepQueues(s: Sys, e: Event)
    ensures QueueGrowsAtTheEnd(s, Next(s, e))
  {
    match e
    case ArriveWrite(route, stmt) => ApplyQueues(s, route.shard, stmt, route.mirror);
    case CommitIntent(id) =>
      if id in s.prepared {
        ApplyQueues(s.(prepared := s.prepared - {id}), s.prepared[id].shard, s.prepared[id].stmt, s.prepared[id].mirror);
      }
    case Tick(reply, page, more, lockHeld) =>
      CopyLeavesQueue(s, reply, page, more, lockHeld);
      UndoLeavesQueue(s, reply);
    case _ =>
  }

  lemma PurgedStep(s: Sys, e: Event)
    requires Inv(s) && HasPurged(s.pc) && HasPurged(Next(s, e).pc)
    ensures Next(s, e).row == s.row
    ensures forall id | id in Queued(Next(s, e), s.row.owner) :: id in Queued(s, s.row.owner) || id >= |s.jobs|
  {
    StepQueues(s, e);
    var s' := Next(s, e);
    forall id | id in Queued(s', s.row.owner) && id < |s.jobs| ensures id in Queued(s, s.row.owner) {
      assert s'.jobs[..|s.jobs|][id] == s'.jobs[id];
    }
  }

  lemma {:induction false} JobsGrowAlong(s: Sys, run: seq<Event>, k: nat)
    requires k <= |run|
    ensures |From(s, run[..k]).jobs| <= |From(s, run).jobs|
  {
    if k < |run| {
      JobsGrowAlong(s, run[..|run| - 1], k);
      assert run[..|run| - 1][..k] == run[..k];
      StepQueues(From(s, run[..|run| - 1]), run[|run| - 1]);
    } else {
      assert run[..k] == run;
    }
  }

  /** Between the purge and the end every mirror the owner has queued is newer than the purge. */
  lemma {:induction false} OnlyNewMirrorsSince(s: Sys, run: seq<Event>) returns (k: nat)
    requires Inv(s) && !HasPurged(s.pc) && ClaimsAreFresh(s, run) && HasPurged(From(s, run).pc)
    ensures PurgedSince(s, run, k, From(s, run).row.owner)
  {
    var n := |run| - 1;
    PrefixIsFine(s, run, |run|);
    RunKeepsInv(s, run[..n]);
    var before := From(s, run[..n]);
    assert run[..n + 1] == run;
    if !HasPurged(before.pc) {
      k := n + 1;
      PurgeEmpties(before, run[n]);
    } else {
      k := OnlyNewMirrorsSince(s, run[..n]);
      PurgedStep(before, run[n]);
      assert run[..n][..k] == run[..k];
      JobsGrowAlong(s, run[..n], k);
    }
  }

  lemma OnlyClearingEndsAnAbort(s: Sys, e: Event)
    requires Inv(s) && s.row.status == Aborting && Next(s, e).row.status != Aborting
    ensures s.pc.AbortClearing? && s.row.owner !in s.fenced && Next(s, e) == s.(row := s.row.(status := NoMigration), pc := Resting)
  {
  }

  lemma OnlyClearingEndsACleanup(s: Sys, e: Event)
    requires Inv(s) && s.row.cleanup.Some? && Next(s, e).row.cleanup != s.row.cleanup
    ensures s.pc == CleanupClearing(s.row.cleanup.value) && s.pc.source !in s.fenced && Next(s, e) == s.(row := s.row.(cleanup := None), pc := Resting)
  {
  }

  lemma OnlyWipingEndsARewind(s: Sys, e: Event)
    requires Inv(s) && s.row.status == Cutover && Next(s, e).row.status == Backfilling
    ensures s.pc.RewindWiping? && s.row.owner !in s.fenced
    ensures Next(s, e) == Wiped(s, s.row.target).(row := s.row.(status := Backfilling), pc := Resting)
  {
  }

  lemma {:induction false} AbortEndsClearing(owner: ShardId, run: seq<Event>, e: Event)
    requires ClaimsAreFresh(Start(owner), run)
    requires After(owner, run).row.status == Aborting && Next(After(owner, run), e).row.status != Aborting
    ensures var s := After(owner, run);
      s.pc.AbortClearing? && s.row.owner !in s.fenced && Next(s, e) == s.(row := s.row.(status := NoMigration), pc := Resting)
  {
    RunKeepsInv(Start(owner), run);
    OnlyClearingEndsAnAbort(After(owner, run), e);
  }

  /** In every run, when an abort ends: it ends as no migration with the owner unmoved and
      unfenced, the target was wiped in this very abort and holds only what mirrors landing
      since the wipe put there, and no mirror queued before the purge is left. */
  lemma {:induction false} AbortEmptiesTheTarget(owner: ShardId, run: seq<Event>, e: Event)
      returns (wiped: nat, purged: nat)
    requires ClaimsAreFresh(Start(owner), run)
    requires After(owner, run).row.status == Aborting && Next(After(owner, run), e).row.status != Aborting
    ensures var s := After(owner, run); var s' := Next(s, e);
      && s'.row == s.row.(status := NoMigration) && s.row.owner !in s'.fenced && s'.rows == s.rows && s'.queue == s.queue
      && WipedSince(Start(owner), run, wiped, s.row.target) && HoldsLandings(Start(owner), run, wiped, s.row.target)
      && PurgedSince(Start(owner), run, purged, s.row.owner)
  {
    AbortEndsClearing(owner, run, e);
    wiped := OnlyLandingsSince(Start(owner), run);
    purged := OnlyNewMirrorsSince(Start(owner), run);
  }

  lemma {:induction false} CleanupEndsClearing(owner: ShardId, run: seq<Event>, e: Event)
    requires ClaimsAreFresh(Start(owner), run)
    requires After(owner, run).row.cleanup.Some? && Next(After(owner, run), e).row.cleanup != After(owner, run).row.cleanup
    ensures var s := After(owner, run);
      s.pc == CleanupClearing(s.row.cleanup.value) && s.pc.source !in s.fenced && Next(s, e) == s.(row := s.row.(cleanup := None), pc := Resting)
  {
    RunKeepsInv(Start(owner), run);
    OnlyClearingEndsACleanup(After(owner, run), e);
  }

  /** In every run, when the cleanup after a flip is forgotten, the old owner is unfenced,
      was wiped in this very cleanup and holds only what mirrors landing since put there. */
  lemma {:induction false} CleanupEmptiesTheSource(owner: ShardId, run: seq<Event>, e: Event) returns (wiped: nat)
    requires ClaimsAreFresh(Start(owner), run)
    requires After(owner, run).row.cleanup.Some? && Next(After(owner, run), e).row.cleanup != After(owner, run).row.cleanup
    ensures var s := After(owner, run); var s' := Next(s, e); var source := s.row.cleanup.value;
      && s'.row == s.row.(cleanup := None) && source !in s'.fenced && s'.rows == s.rows
      && WipedSince(Start(owner), run, wiped, source) && HoldsLandings(Start(owner), run, wiped, source)
  {
    CleanupEndsClearing(owner, run, e);
    wiped := OnlyLandingsSince(Start(owner), run);
  }

  lemma {:induction false} RewindEndsWiping(owner: ShardId, run: seq<Event>, e: Event)
    requires ClaimsAreFresh(Start(owner), run)
    requires After(owner, run).row.status == Cutover && Next(After(owner, run), e).row.status == Backfilling
    ensures var s := After(owner, run);
      s.pc.RewindWiping? && s.row.owner !in s.fenced && Next(s, e) == Wiped(s, s.row.target).(row := s.row.(status := Backfilling), pc := Resting)
  {
    RunKeepsInv(Start(owner), run);
    OnlyWipingEndsARewind(After(owner, run), e);
  }

  /** In every run, when a cutover is rewound the target is empty, has nothing queued, the
      owner is unfenced, and no mirror queued before the purge is left. */
  lemma {:induction false} RewindEmptiesTheTarget(owner: ShardId, run: seq<Event>, e: Event) returns (purged: nat)
    requires ClaimsAreFresh(Start(owner), run)
    requires After(owner, run).row.status == Cutover && Next(After(owner, run), e).row.status == Backfilling
    ensures var s := After(owner, run); var s' := Next(s, e);
      && s'.row == s.row.(status := Backfilling) && s.row.owner !in s'.fenced
      && s'.Rows(s.row.target) == map[] && Queued(s', s.row.target) == {} && s'.queue <= s.queue
      && PurgedSince(Start(owner), run, purged, s.row.owner)
  {
    RewindEndsWiping(owner, run, e);
    var s := After(owner, run);
    NoneIsQueued(s, s.row.target);
    assert Queued(Next(s, e), s.row.target) == Queued(Wiped(s, s.row.target), s.row.target);
    purged := OnlyNewMirrorsSince(Start(owner), run);
  }
}
