/** Online migration of one vBucket between shards, over all runs: client writes, 2PC
    intents, mirrored writes, ticks of the catalog's orchestration interrupted at every
    remote call, checksum rewinds, aborts and crashes. */
module Migration {
  import opened Basics
  import opened MigrationSpec

  datatype Key = Key(table: string, partitionKey: string)
  type Row = map<string, string>
  /** The rows of the vBucket on one shard, as provenance attributes them. */
  type Content = map<Key, Row>

  /** A statement run on some content: it errors, it affects no row, or it affects rows. */
  datatype Outcome = Failed | Untouched | Touched(content: Content)

  /** Any deterministic statement. */
  type Stmt = Content -> Outcome

  function Run(stmt: Stmt, c: Content): Content { if stmt(c).Touched? then stmt(c).content else c }

  /** The effect of writes applied one after the other. */
  function Replay(writes: seq<Stmt>): Content {
    if writes == [] then map[] else Run(writes[|writes| - 1], Replay(writes[..|writes| - 1]))
  }

  /** A mirror job in the source's queue; its identity is its position in `jobs`. */
  datatype Job = Job(source: ShardId, target: ShardId, stmt: Stmt)

  /** A prepared 2PC intent on a shard. */
  datatype Intent = Intent(shard: ShardId, stmt: Stmt, mirror: Option<ShardId>)

  /** A write on its way to the shard the catalog named. */
  datatype Route = Route(shard: ShardId, mirror: Option<ShardId>)

  /** Where the latched tick or abort stands: the next thing it does. `source` and
      `target` are the row as the tick read it. */
  datatype Pc =
    | Resting
    | Exporting(source: ShardId, target: ShardId)
    | Importing(source: ShardId, target: ShardId, page: Content)
    | Fencing(source: ShardId, target: ShardId)
    | Draining(source: ShardId, target: ShardId)
    | Counting(source: ShardId, target: ShardId)
    | CheckingSource(source: ShardId, target: ShardId)
    | CheckingTarget(source: ShardId, target: ShardId, sourceSum: Content)
    | Comparing(source: ShardId, target: ShardId, sourceSum: Content, targetSum: Content)
    | ConfirmingLock(source: ShardId, target: ShardId)
    | RewindUnfencing(source: ShardId, target: ShardId)
    | RewindPurging(source: ShardId, target: ShardId)
    | RewindWiping(source: ShardId, target: ShardId)
    | CleanupDeleting(source: ShardId)
    | CleanupUnfencing(source: ShardId)
    | CleanupClearing(source: ShardId)
    | AbortUnfencing(source: ShardId, target: ShardId)
    | AbortPurging(source: ShardId, target: ShardId)
    | AbortWiping(source: ShardId, target: ShardId)
    | AbortClearing

  /** `checks` are the starts that passed their first check and are awaiting the
      provenance scan, as (owner read then, requested target). `queue` are the jobs still
      queued, `wire` the deliveries some shard has begun, `applied` the jobs whose request
      id their target has recorded. `acked` is every write a shard applied, in order. */
  datatype Sys = Sys(
    row: MapRow, pc: Pc, checks: set<(ShardId, ShardId)>,
    rows: map<ShardId, Content>, fenced: set<ShardId>, routes: set<Route>,
    jobs: seq<Job>, queue: set<nat>, wire: set<nat>, applied: set<nat>,
    prepared: map<nat, Intent>, acked: seq<Stmt>)
  {
    function Rows(s: ShardId): Content { if s in rows then rows[s] else map[] }
  }

  /** How a remote call ends for its caller: answered, or failed with the effect applied
      or not. */
  datatype Reply = Answered | Lost(applied: bool)

  datatype Event =
    | RouteWrite
    | ArriveWrite(route: Route, stmt: Stmt)
    | ArrivePrepare(route: Route, id: nat, stmt: Stmt)
    | CommitIntent(id: nat)
    | AbortIntent(id: nat)
    | BeginDelivery(job: nat)
    | Land(job: nat)
    | Confirm(job: nat)
    | LoseDelivery(job: nat)
    | CheckStart(target: ShardId)
    | Claim(check: (ShardId, ShardId))
    | RequestAbort
    | Crash
    | Tick(reply: Reply, page: set<Key>, more: bool, lockHeld: bool)

  // ---- shards ----

  function SetRows(s: Sys, shard: ShardId, c: Content): Sys { s.(rows := s.rows[shard := c]) }

  /** A statement applied by its shard, with its mirror job enqueued in the same transaction. */
  function Apply(s: Sys, shard: ShardId, stmt: Stmt, mirror: Option<ShardId>): Sys {
    match stmt(s.Rows(shard))
    case Failed => s
    case Untouched => s.(acked := s.acked + [stmt])
    case Touched(c) =>
      var written := SetRows(s, shard, c).(acked := s.acked + [stmt]);
      if mirror.None? then written
      else written.(jobs := s.jobs + [Job(shard, mirror.value, stmt)], queue := s.queue + {|s.jobs|})
  }

  /** A mirror reaching its target: replayed unless its request id is already there. The
      fence and row locks do not apply to it. */
  function LandStep(s: Sys, id: nat): Sys
    requires id < |s.jobs|
  {
    var job := s.jobs[id];
    if id in s.applied then s
    else match job.stmt(s.Rows(job.target))
      case Failed => s
      case Untouched => s.(applied := s.applied + {id})
      case Touched(c) => SetRows(s, job.target, c).(applied := s.applied + {id})
  }

  function Queued(s: Sys, shard: ShardId): set<nat> { set id | id in s.queue && id < |s.jobs| && s.jobs[id].source == shard }

  function Purged(s: Sys, shard: ShardId): Sys { s.(queue := s.queue - Queued(s, shard)) }

  /** Deleting the vBucket's rows on a shard also drops its queued mirrors. */
  function Wiped(s: Sys, shard: ShardId): Sys { SetRows(Purged(s, shard), shard, map[]) }

  predicate HasPrepared(s: Sys, shard: ShardId) { exists id | id in s.prepared :: s.prepared[id].shard == shard }

  // ---- one stretch of the latched tick or abort ----

  function Reached(reply: Reply): bool { reply == Answered || reply == Lost(true) }

  /** The continuation if the call was answered; otherwise the tick ends here. */
  function Then(reply: Reply, pc: Pc): Pc { if reply.Lost? then Resting else pc }

  /** A new tick: heartbeat the topology lock and pick up the row where it stands. */
  function RestingTick(s: Sys, lockHeld: bool): Sys {
    if s.row.cleanup.Some? then s.(pc := CleanupDeleting(s.row.cleanup.value))
    else if !lockHeld then s
    else if s.row.status == Backfilling then s.(pc := Exporting(s.row.owner, s.row.target))
    else if s.row.status == Cutover then s.(pc := Fencing(s.row.owner, s.row.target))
    else s
  }

  /** One exported page, its import, or the end of the copy. */
  function BackfillTick(s: Sys, reply: Reply, page: set<Key>, more: bool): Sys {
    match s.pc
    case Exporting(source, target) =>
      if reply.Lost? then s.(pc := Resting)
      else if more then s.(pc := Importing(source, target, map k | k in s.Rows(source) && k in page :: s.Rows(source)[k]))
      else if CutoverEntered(s.row, target) == s.row then s.(pc := Resting)
      else s.(row := CutoverEntered(s.row, target), pc := Fencing(source, target))
    case Importing(source, target, rows) =>
      var s' := if Reached(reply) then SetRows(s, target, s.Rows(target) + rows) else s;
      s'.(pc := Then(reply, Exporting(source, target)))
    case _ => s
  }

  /** Fence the source, wait for its mirrors and its prepared intents. */
  function FenceTick(s: Sys, reply: Reply): Sys {
    match s.pc
    case Fencing(source, target) =>
      var s' := if Reached(reply) then s.(fenced := s.fenced + {source}) else s;
      s'.(pc := Then(reply, Draining(source, target)))
    case Draining(source, target) =>
      s.(pc := if Queued(s, source) != {} then Resting else Then(reply, Counting(source, target)))
    case Counting(source, target) =>
      s.(pc := if HasPrepared(s, source) then Resting else Then(reply, CheckingSource(source, target)))
    case _ => s
  }

  /** Compare the checksums, confirm the lock, flip. */
  function FlipTick(s: Sys, reply: Reply, lockHeld: bool): Sys {
    match s.pc
    case CheckingSource(source, target) => s.(pc := Then(reply, CheckingTarget(source, target, s.Rows(source))))
    case CheckingTarget(source, target, sourceSum) => s.(pc := Then(reply, Comparing(source, target, sourceSum, s.Rows(target))))
    case Comparing(source, target, sourceSum, targetSum) =>
      s.(pc := if !StillCutover(s.row, source, target) then Resting
               else if sourceSum != targetSum then RewindUnfencing(source, target)
               else ConfirmingLock(source, target))
    case ConfirmingLock(source, target) =>
      if reply.Lost? || !lockHeld || !StillCutover(s.row, source, target) then s.(pc := Resting)
      else s.(row := Flipped(s.row, source, target), pc := CleanupDeleting(source))
    case _ => s
  }

  /** A mismatch: lift the fence, drop the queued mirrors, wipe the target, copy again. */
  function RewindTick(s: Sys, reply: Reply): Sys {
    match s.pc
    case RewindUnfencing(source, target) =>
      var s' := if Reached(reply) then s.(fenced := s.fenced - {source}) else s;
      s'.(pc := Then(reply, RewindPurging(source, target)))
    case RewindPurging(source, target) =>
      var s' := if Reached(reply) then Purged(s, source) else s;
      s'.(pc := Then(reply, RewindWiping(source, target)))
    case RewindWiping(source, target) =>
      var s' := if Reached(reply) then Wiped(s, target) else s;
      s'.(row := if reply.Lost? then s.row else Rewound(s.row, target), pc := Resting)
    case _ => s
  }

  /** After the flip: delete the source copy, then lift its fence, then forget it. */
  function CleanupTick(s: Sys, reply: Reply): Sys {
    match s.pc
    case CleanupDeleting(source) =>
      var s' := if Reached(reply) then Wiped(s, source) else s;
      s'.(pc := Then(reply, CleanupUnfencing(source)))
    case CleanupUnfencing(source) =>
      var s' := if Reached(reply) then ArrivedBefore(s, source).(fenced := s.fenced - {source}) else s;
      s'.(pc := Then(reply, CleanupClearing(source)))
    case CleanupClearing(_) => s.(row := if reply.Lost? then s.row else CleanedUp(s.row), pc := Resting)
    case _ => s
  }

  function AbortTick(s: Sys, reply: Reply): Sys {
    match s.pc
    case AbortUnfencing(source, target) =>
      var s' := if Reached(reply) then s.(fenced := s.fenced - {source}) else s;
      s'.(pc := Then(reply, AbortPurging(source, target)))
    case AbortPurging(source, target) =>
      var s' := if Reached(reply) then Purged(s, source) else s;
      s'.(pc := Then(reply, AbortWiping(source, target)))
    case AbortWiping(source, target) =>
      var s' := if Reached(reply) then Wiped(s, target) else s;
      s'.(pc := Then(reply, AbortClearing))
    case AbortClearing => s.(row := if reply.Lost? then s.row else AbortDone(s.row), pc := Resting)
    case _ => s
  }

  function TickStep(s: Sys, reply: Reply, page: set<Key>, more: bool, lockHeld: bool): Sys {
    var pc := s.pc;
    if pc.Resting? then RestingTick(s, lockHeld)
    else if pc.Exporting? || pc.Importing? then BackfillTick(s, reply, page, more)
    else if pc.Fencing? || pc.Draining? || pc.Counting? then FenceTick(s, reply)
    else if pc.CheckingSource? || pc.CheckingTarget? || pc.Comparing? || pc.ConfirmingLock? then FlipTick(s, reply, lockHeld)
    else if pc.RewindUnfencing? || pc.RewindPurging? || pc.RewindWiping? then RewindTick(s, reply)
    else if pc.CleanupDeleting? || pc.CleanupUnfencing? || pc.CleanupClearing? then CleanupTick(s, reply)
    else AbortTick(s, reply)
  }

  /** The environment assumption: a write routed before the flip reaches the old source
      before the post-flip unfence, or never. */
  function ArrivedBefore(s: Sys, shard: ShardId): Sys { s.(routes := set r | r in s.routes && r.shard != shard) }

  /** One event; an event that is not enabled changes nothing. */
  function Next(s: Sys, e: Event): Sys {
    match e
    case RouteWrite =>
      s.(routes := s.routes + {Route(s.row.owner, if s.row.status in {Backfilling, Cutover} then Some(s.row.target) else None)})
    case ArriveWrite(route, stmt) =>
      if route !in s.routes || route.shard in s.fenced then s else Apply(s, route.shard, stmt, route.mirror)
    case ArrivePrepare(route, id, stmt) =>
      if route !in s.routes || route.shard in s.fenced || id in s.prepared || stmt(s.Rows(route.shard)).Failed? then s
      else s.(prepared := s.prepared[id := Intent(route.shard, stmt, route.mirror)])
    case CommitIntent(id) =>
      if id !in s.prepared || s.prepared[id].stmt(s.Rows(s.prepared[id].shard)).Failed? then s
      else Apply(s.(prepared := s.prepared - {id}), s.prepared[id].shard, s.prepared[id].stmt, s.prepared[id].mirror)
    case AbortIntent(id) => s.(prepared := s.prepared - {id})
    case BeginDelivery(id) => if id in s.queue && id < |s.jobs| then s.(wire := s.wire + {id}) else s
    case Land(id) => if id in s.wire && id < |s.jobs| then LandStep(s, id) else s
    case Confirm(id) => if id in s.applied then s.(queue := s.queue - {id}) else s
    case LoseDelivery(id) => s.(wire := s.wire - {id})
    case CheckStart(target) =>
      if s.row.status == NoMigration && s.row.cleanup.None? && target != s.row.owner
      then s.(checks := s.checks + {(s.row.owner, target)}) else s
    case Claim(check) => if check in s.checks then s.(row := Claimed(s.row, check.1)) else s
    case RequestAbort =>
      if s.pc.Resting? && s.row.status != NoMigration
      then s.(row := AbortBegun(s.row), pc := AbortUnfencing(s.row.owner, s.row.target)) else s
    case Crash => s.(pc := Resting)
    case Tick(reply, page, more, lockHeld) => TickStep(s, reply, page, more, lockHeld)
  }

  /** The vBucket starts on one shard, with no rows and no migration. */
  function Start(owner: ShardId): Sys {
    Sys(MapRow(owner, NoMigration, owner, None), Resting, {}, map[], {}, {}, [], {}, {}, {}, map[], [])
  }

  function From(s: Sys, run: seq<Event>): Sys {
    if run == [] then s else Next(From(s, run[..|run| - 1]), run[|run| - 1])
  }

  function After(owner: ShardId, run: seq<Event>): Sys { From(Start(owner), run) }

  // ---- what every step keeps ----

  /** The row as the latched tick or abort needs it. */
  predicate PcOk(s: Sys) {
    match s.pc
    case Resting => true
    case Exporting(source, target) => s.row == MapRow(source, Backfilling, target, None)
    case Importing(source, target, _) => s.row == MapRow(source, Backfilling, target, None)
    case Fencing(source, target) => StillCutover(s.row, source, target)
    case Draining(source, target) => StillCutover(s.row, source, target) && source in s.fenced
    case Counting(source, target) => StillCutover(s.row, source, target) && source in s.fenced
    case CheckingSource(source, target) => Sealed(s, source, target)
    case CheckingTarget(source, target, _) => Sealed(s, source, target)
    case Comparing(source, target, _, _) => Sealed(s, source, target)
    case ConfirmingLock(source, target) => Sealed(s, source, target)
    case RewindUnfencing(source, target) => StillCutover(s.row, source, target)
    case RewindPurging(source, target) => StillCutover(s.row, source, target) && source !in s.fenced
    case RewindWiping(source, target) => StillCutover(s.row, source, target) && source !in s.fenced
    case CleanupDeleting(source) => s.row.cleanup == Some(source)
    case CleanupUnfencing(source) => s.row.cleanup == Some(source)
    case CleanupClearing(source) => s.row.cleanup == Some(source) && source !in s.fenced
    case AbortUnfencing(source, target) => s.row == MapRow(source, Aborting, target, None)
    case AbortPurging(source, target) => s.row == MapRow(source, Aborting, target, None) && source !in s.fenced
    case AbortWiping(source, target) => s.row == MapRow(source, Aborting, target, None) && source !in s.fenced
    case AbortClearing => s.row.status == Aborting && s.row.owner !in s.fenced
  }

  /** Nothing can change the source any more: it is fenced and holds no prepared intent. */
  predicate Sealed(s: Sys, source: ShardId, target: ShardId) {
    StillCutover(s.row, source, target) && source in s.fenced && !HasPrepared(s, source)
  }

  predicate RowOk(row: MapRow) {
    && (row.status != NoMigration ==> row.target != row.owner && row.cleanup.None?)
    && row.cleanup != Some(row.owner)
  }

  predicate FenceOk(s: Sys, shard: ShardId) {
    (s.row.status in {Cutover, Aborting} && shard == s.row.owner) || s.row.cleanup == Some(shard)
  }

  predicate RouteOk(s: Sys, r: Route) {
    (r.shard == s.row.owner || (s.row.cleanup == Some(r.shard) && r.shard in s.fenced)) && r.mirror != Some(r.shard)
  }

  ghost predicate Inv(s: Sys) {
    && RowOk(s.row) && PcOk(s)
    && (forall x | x in s.fenced :: FenceOk(s, x))
    && (forall r | r in s.routes :: RouteOk(s, r))
    && (forall id | id in s.prepared :: s.prepared[id].shard == s.row.owner && s.prepared[id].mirror != Some(s.row.owner))
  }

  /** The claim names a target that is not the owner at that moment. */
  predicate ClaimIsFresh(s: Sys, e: Event) { e.Claim? && e.check in s.checks ==> e.check.1 != s.row.owner }

  /** A rows-changing statement: running it can overwrite something. */
  ghost predicate Effective(stmt: Stmt) { exists c: Content :: Run(stmt, c) != c }

  /** A mirror job that may still change `shard`. */
  ghost predicate Stray(s: Sys, id: nat, shard: ShardId) {
    id < |s.jobs| && s.jobs[id].target == shard && (id in s.queue || id in s.wire) && id !in s.applied && Effective(s.jobs[id].stmt)
  }

  ghost predicate NoStray(s: Sys, shard: ShardId) { forall id: nat :: !Stray(s, id, shard) }

  /** When the target's checksum is read, no mirror that could change it is outstanding. */
  ghost predicate CheckIsClean(s: Sys, e: Event) { e.Tick? && s.pc.CheckingTarget? ==> NoStray(s, s.pc.target) }

  /** The shard the map names holds exactly the acknowledged writes, and will. */
  ghost predicate Safe(s: Sys) {
    && s.Rows(s.row.owner) == Replay(s.acked)
    && NoStray(s, s.row.owner)
    && (s.pc.CheckingTarget? ==> s.pc.sourceSum == s.Rows(s.row.owner))
    && (s.pc.Comparing? ==> s.pc.sourceSum == s.Rows(s.row.owner) && s.pc.targetSum == s.Rows(s.row.target) && NoStray(s, s.row.target))
    && (s.pc.ConfirmingLock? ==> s.Rows(s.row.owner) == s.Rows(s.row.target) && NoStray(s, s.row.target))
  }

  lemma BackfillKeepsInv(s: Sys, reply: Reply, page: set<Key>, more: bool, lockHeld: bool)
    requires Inv(s)
    ensures Inv(BackfillTick(s, reply, page, more))
    ensures s.pc.Resting? ==> Inv(RestingTick(s, lockHeld))
  {
  }

  lemma FenceKeepsInv(s: Sys, reply: Reply)
    requires Inv(s)
    ensures Inv(FenceTick(s, reply))
  {
  }

  lemma FlipKeepsInv(s: Sys, reply: Reply, lockHeld: bool)
    requires Inv(s)
    ensures Inv(FlipTick(s, reply, lockHeld))
  {
  }

  lemma RewindKeepsInv(s: Sys, reply: Reply)
    requires Inv(s)
    ensures Inv(RewindTick(s, reply))
  {
  }

  lemma CleanupKeepsInv(s: Sys, reply: Reply)
    requires Inv(s)
    ensures Inv(CleanupTick(s, reply))
  {
  }

  lemma AbortUndoesInv(s: Sys, reply: Reply)
    requires Inv(s) && (s.pc.AbortUnfencing? || s.pc.AbortPurging?)
    ensures Inv(AbortTick(s, reply))
  {
  }

  lemma AbortKeepsInv(s: Sys, reply: Reply)
    requires Inv(s)
    ensures Inv(AbortTick(s, reply))
  {
    if s.pc.AbortUnfencing? || s.pc.AbortPurging? { AbortUndoesInv(s, reply); }
  }

  lemma TickKeepsInv(s: Sys, reply: Reply, page: set<Key>, more: bool, lockHeld: bool)
    requires Inv(s)
    ensures Inv(TickStep(s, reply, page, more, lockHeld))
  {
    BackfillKeepsInv(s, reply, page, more, lockHeld);
    FenceKeepsInv(s, reply);
    FlipKeepsInv(s, reply, lockHeld);
    RewindKeepsInv(s, reply);
    CleanupKeepsInv(s, reply);
    AbortKeepsInv(s, reply);
  }

  /** Rows, jobs and deliveries play no part in the control invariant. */
  lemma SameControl(s: Sys, s': Sys)
    requires Inv(s)
    requires s'.prepared == s.prepared && s'.pc == s.pc && s'.row == s.row && s'.fenced == s.fenced && s'.routes == s.routes
    ensures Inv(s')
  {
  }

  lemma DropIntentKeepsInv(s: Sys, id: nat)
    requires Inv(s)
    ensures Inv(s.(prepared := s.prepared - {id}))
  {
    var s' := s.(prepared := s.prepared - {id});
    forall shard: ShardId ensures HasPrepared(s', shard) ==> HasPrepared(s, shard) {}
  }

  lemma PrepareKeepsInv(s: Sys, route: Route, id: nat, stmt: Stmt)
    requires Inv(s)
    ensures Inv(Next(s, ArrivePrepare(route, id, stmt)))
  {
    var s' := Next(s, ArrivePrepare(route, id, stmt));
    if s' != s {
      assert RouteOk(s, route) && route.shard == s.row.owner && route.shard !in s.fenced;
    }
  }

  lemma RouteKeepsInv(s: Sys)
    requires Inv(s)
    ensures Inv(Next(s, RouteWrite))
  {
    assert Next(s, RouteWrite).prepared == s.prepared;
  }

  lemma WriteKeepsInv(s: Sys, e: Event)
    requires Inv(s) && (e.RouteWrite? || e.ArriveWrite? || e.ArrivePrepare? || e.CommitIntent? || e.AbortIntent?)
    ensures Inv(Next(s, e))
  {
    match e
    case RouteWrite => RouteKeepsInv(s);
    case ArriveWrite(route, stmt) => SameControl(s, Next(s, e));
    case ArrivePrepare(route, id, stmt) => PrepareKeepsInv(s, route, id, stmt);
    case CommitIntent(id) =>
      if id in s.prepared {
        DropIntentKeepsInv(s, id);
        if Next(s, e) != s { SameControl(s.(prepared := s.prepared - {id}), Next(s, e)); }
      }
    case AbortIntent(id) => DropIntentKeepsInv(s, id);
  }

  lemma ClaimKeepsInv(s: Sys, e: Event)
    requires Inv(s) && e.Claim? && ClaimIsFresh(s, e)
    ensures Inv(Next(s, e))
  {
    assert forall shard :: HasPrepared(Next(s, e), shard) ==> HasPrepared(s, shard);
  }

  lemma LatchKeepsInv(s: Sys, e: Event)
    requires Inv(s) && (e.RequestAbort? || e.Crash?)
    ensures Inv(Next(s, e))
  {
  }

  lemma OtherKeepsInv(s: Sys, e: Event)
    requires Inv(s) && (e.BeginDelivery? || e.Land? || e.Confirm? || e.LoseDelivery? || e.CheckStart?)
    ensures Inv(Next(s, e))
  {
    SameControl(s, Next(s, e));
  }

  lemma NextKeepsInv(s: Sys, e: Event)
    requires Inv(s) && ClaimIsFresh(s, e)
    ensures Inv(Next(s, e))
  {
    if e.Tick? { TickKeepsInv(s, e.reply, e.page, e.more, e.lockHeld); }
    else if e.RouteWrite? || e.ArriveWrite? || e.ArrivePrepare? || e.CommitIntent? || e.AbortIntent? { WriteKeepsInv(s, e); }
    else if e.Claim? { ClaimKeepsInv(s, e); }
    else if e.RequestAbort? || e.Crash? { LatchKeepsInv(s, e); }
    else { OtherKeepsInv(s, e); }
  }

  lemma ReplayOne(writes: seq<Stmt>, stmt: Stmt)
    ensures Replay(writes + [stmt]) == Run(stmt, Replay(writes))
  {
    assert (writes + [stmt])[..|writes|] == writes;
  }

  lemma ApplyKeepsSafe(s: Sys, stmt: Stmt, mirror: Option<ShardId>)
    requires Inv(s) && Safe(s) && mirror != Some(s.row.owner)
    requires !s.pc.CheckingTarget? && !s.pc.Comparing? && !s.pc.ConfirmingLock?
    ensures Safe(Apply(s, s.row.owner, stmt, mirror))
  {
    var s' := Apply(s, s.row.owner, stmt, mirror);
    ReplayOne(s.acked, stmt);
    forall id: nat ensures !Stray(s', id, s.row.owner) { assert !Stray(s, id, s.row.owner); }
  }

  /** A landing mirror leaves alone every shard that has no stray. */
  lemma LandSpares(s: Sys, id: nat, shard: ShardId)
    requires id < |s.jobs| && id in s.wire && NoStray(s, shard)
    ensures LandStep(s, id).Rows(shard) == s.Rows(shard) && NoStray(LandStep(s, id), shard)
  {
    var s' := LandStep(s, id);
    assert !Stray(s, id, shard);
    if s.jobs[id].target == shard && id !in s.applied {
      assert !Effective(s.jobs[id].stmt);
      assert Run(s.jobs[id].stmt, s.Rows(shard)) == s.Rows(shard);
    }
    forall other: nat ensures !Stray(s', other, shard) { assert !Stray(s, other, shard); }
  }

  lemma LandKeepsSafe(s: Sys, id: nat)
    requires Inv(s) && Safe(s) && id < |s.jobs| && id in s.wire
    ensures Safe(LandStep(s, id))
  {
    LandSpares(s, id, s.row.owner);
    if s.pc.Comparing? || s.pc.ConfirmingLock? { LandSpares(s, id, s.row.target); }
  }

  /** Strays only come from new jobs: a step that creates none and delivers none adds none. */
  lemma NoNewStray(s: Sys, s': Sys, shard: ShardId)
    requires NoStray(s, shard) && s'.jobs == s.jobs && s'.queue + s'.wire <= s.queue + s.wire && s.applied <= s'.applied
    ensures NoStray(s', shard)
  {
    forall id: nat ensures !Stray(s', id, shard) {
      assert !Stray(s, id, shard);
      assert id in s'.queue || id in s'.wire ==> id in s'.queue + s'.wire;
    }
  }

  lemma RestingKeepsSafe(s: Sys, lockHeld: bool)
    requires RowOk(s.row) && Safe(s) && s.pc.Resting?
    ensures Safe(RestingTick(s, lockHeld))
  {
    NoNewStray(s, RestingTick(s, lockHeld), s.row.owner);
  }

  lemma BackfillKeepsSafe(s: Sys, reply: Reply, page: set<Key>, more: bool)
    requires RowOk(s.row) && PcOk(s) && Safe(s)
    ensures Safe(BackfillTick(s, reply, page, more))
  {
    NoNewStray(s, BackfillTick(s, reply, page, more), s.row.owner);
  }

  lemma FenceKeepsSafe(s: Sys, reply: Reply)
    requires RowOk(s.row) && PcOk(s) && Safe(s)
    ensures Safe(FenceTick(s, reply))
  {
    NoNewStray(s, FenceTick(s, reply), s.row.owner);
  }

  lemma FlipKeepsSafe(s: Sys, reply: Reply, lockHeld: bool)
    requires RowOk(s.row) && PcOk(s) && Safe(s) && (s.pc.CheckingTarget? ==> NoStray(s, s.pc.target))
    ensures Safe(FlipTick(s, reply, lockHeld))
  {
    var s' := FlipTick(s, reply, lockHeld);
    NoNewStray(s, s', s.row.owner);
    if s.pc.CheckingTarget? || s.pc.Comparing? || s.pc.ConfirmingLock? { NoNewStray(s, s', s.row.target); }
  }

  lemma RewindKeepsSafe(s: Sys, reply: Reply)
    requires RowOk(s.row) && PcOk(s) && Safe(s)
    ensures Safe(RewindTick(s, reply))
  {
    NoNewStray(s, RewindTick(s, reply), s.row.owner);
  }

  lemma CleanupKeepsSafe(s: Sys, reply: Reply)
    requires RowOk(s.row) && PcOk(s) && Safe(s)
    ensures Safe(CleanupTick(s, reply))
  {
    NoNewStray(s, CleanupTick(s, reply), s.row.owner);
  }

  lemma AbortUndoesSafe(s: Sys, reply: Reply)
    requires RowOk(s.row) && PcOk(s) && Safe(s) && (s.pc.AbortUnfencing? || s.pc.AbortPurging?)
    ensures Safe(AbortTick(s, reply))
  {
    NoNewStray(s, AbortTick(s, reply), s.row.owner);
  }

  lemma AbortKeepsSafe(s: Sys, reply: Reply)
    requires RowOk(s.row) && PcOk(s) && Safe(s)
    ensures Safe(AbortTick(s, reply))
  {
    if s.pc.AbortUnfencing? || s.pc.AbortPurging? { AbortUndoesSafe(s, reply); }
    else { NoNewStray(s, AbortTick(s, reply), s.row.owner); }
  }

  lemma TickKeepsSafe(s: Sys, reply: Reply, page: set<Key>, more: bool, lockHeld: bool)
    requires Inv(s) && Safe(s) && (s.pc.CheckingTarget? ==> NoStray(s, s.pc.target))
    ensures Safe(TickStep(s, reply, page, more, lockHeld))
  {
    if s.pc.Resting? { RestingKeepsSafe(s, lockHeld); }
    BackfillKeepsSafe(s, reply, page, more);
    FenceKeepsSafe(s, reply);
    FlipKeepsSafe(s, reply, lockHeld);
    RewindKeepsSafe(s, reply);
    CleanupKeepsSafe(s, reply);
    AbortKeepsSafe(s, reply);
  }

  lemma CommitKeepsSafe(s: Sys, id: nat)
    requires Inv(s) && Safe(s)
    ensures Safe(Next(s, CommitIntent(id)))
  {
    if id in s.prepared {
      var s0 := s.(prepared := s.prepared - {id});
      assert HasPrepared(s, s.row.owner);
      NoNewStray(s, s0, s.row.owner);
      DropIntentKeepsInv(s, id);
      ApplyKeepsSafe(s0, s.prepared[id].stmt, s.prepared[id].mirror);
    }
  }

  lemma ArriveKeepsSafe(s: Sys, route: Route, stmt: Stmt)
    requires Inv(s) && Safe(s)
    ensures Safe(Next(s, ArriveWrite(route, stmt)))
  {
    if route in s.routes && route.shard !in s.fenced {
      assert RouteOk(s, route);
      ApplyKeepsSafe(s, stmt, route.mirror);
    }
  }

  lemma ControlKeepsSafe(s: Sys, e: Event)
    requires RowOk(s.row) && PcOk(s) && Safe(s)
    requires e.RouteWrite? || e.ArrivePrepare? || e.AbortIntent? || e.BeginDelivery? || e.Confirm? || e.LoseDelivery?
    ensures Safe(Next(s, e))
  {
    var s' := Next(s, e);
    NoNewStray(s, s', s.row.owner);
    if s.pc.Comparing? || s.pc.ConfirmingLock? { NoNewStray(s, s', s.row.target); }
  }

  lemma LatchKeepsSafe(s: Sys, e: Event)
    requires RowOk(s.row) && PcOk(s) && Safe(s) && (e.CheckStart? || e.Claim? || e.RequestAbort? || e.Crash?)
    ensures Safe(Next(s, e))
  {
    var s' := Next(s, e);
    NoNewStray(s, s', s.row.owner);
    if s.pc.Comparing? || s.pc.ConfirmingLock? { NoNewStray(s, s', s.row.target); }
  }

  lemma NextKeepsSafe(s: Sys, e: Event)
    requires Inv(s) && Safe(s) && ClaimIsFresh(s, e) && CheckIsClean(s, e)
    ensures Safe(Next(s, e))
  {
    match e
    case Tick(reply, page, more, lockHeld) => TickKeepsSafe(s, reply, page, more, lockHeld);
    case CommitIntent(id) => CommitKeepsSafe(s, id);
    case ArriveWrite(route, stmt) => ArriveKeepsSafe(s, route, stmt);
    case Land(id) => if id in s.wire && id < |s.jobs| { LandKeepsSafe(s, id); }
    case _ => if e.CheckStart? || e.Claim? || e.RequestAbort? || e.Crash? { LatchKeepsSafe(s, e); } else { ControlKeepsSafe(s, e); }
  }

  // ---- what it means, over every run ----

  /** Every claim of the run names a target that is not the owner at that moment. */
  ghost predicate ClaimsAreFresh(s: Sys, run: seq<Event>) {
    forall n: nat | n < |run| :: ClaimIsFresh(From(s, run[..n]), run[n])
  }

  /** From its `first` event on, every target checksum of the run is read with no mirror
      left that could change the target. */
  ghost predicate ChecksAreClean(s: Sys, run: seq<Event>, first: nat) {
    forall n: nat | first <= n < |run| :: CheckIsClean(From(s, run[..n]), run[n])
  }

  ghost predicate Lossless(s: Sys) { s.Rows(s.row.owner) == Replay(s.acked) }

  lemma {:induction false} PrefixIsFine(s: Sys, run: seq<Event>, first: nat)
    requires run != [] && ClaimsAreFresh(s, run) && ChecksAreClean(s, run, first)
    ensures var n := |run| - 1;
      ClaimsAreFresh(s, run[..n]) && ChecksAreClean(s, run[..n], first)
      && ClaimIsFresh(From(s, run[..n]), run[n]) && (first <= n ==> CheckIsClean(From(s, run[..n]), run[n]))
  {
    var before := run[..|run| - 1];
    forall n: nat | n < |before| ensures ClaimIsFresh(From(s, before[..n]), before[n]) {
      assert before[..n] == run[..n] && ClaimIsFresh(From(s, run[..n]), run[n]);
    }
    forall n: nat | first <= n < |before| ensures CheckIsClean(From(s, before[..n]), before[n]) {
      assert before[..n] == run[..n] && CheckIsClean(From(s, run[..n]), run[n]);
    }
  }

  lemma {:induction false} RunKeepsInv(s: Sys, run: seq<Event>)
    requires Inv(s) && ClaimsAreFresh(s, run)
    ensures Inv(From(s, run))
  {
    if run != [] {
      PrefixIsFine(s, run, |run|);
      RunKeepsInv(s, run[..|run| - 1]);
      NextKeepsInv(From(s, run[..|run| - 1]), run[|run| - 1]);
    }
  }

  /** The first event may be excused from its check when that check is clean anyway. */
  lemma {:induction false} RunKeepsSafe(s: Sys, run: seq<Event>, first: nat)
    requires Inv(s) && Safe(s) && ClaimsAreFresh(s, run) && ChecksAreClean(s, run, first)
    requires first == 0 || (first == 1 && (s.pc.CheckingTarget? ==> NoStray(s, s.pc.target)))
    ensures Safe(From(s, run))
  {
    if run != [] {
      var n := |run| - 1;
      PrefixIsFine(s, run, first);
      RunKeepsInv(s, run[..n]);
      RunKeepsSafe(s, run[..n], first);
      if n == 0 { assert run[..0] == []; }
      NextKeepsSafe(From(s, run[..n]), run[n]);
    }
  }

  /** No acknowledged write is lost: the shard the map names holds exactly the effect of
      every write any shard ever applied, at every moment of the run. */
  lemma {:induction false} NoAcknowledgedWriteLost(owner: ShardId, run: seq<Event>)
    requires ClaimsAreFresh(Start(owner), run) && ChecksAreClean(Start(owner), run, 0)
    ensures Lossless(After(owner, run))
  {
    RunKeepsSafe(Start(owner), run, 0);
  }

  /** No orphaned fence: a fenced shard is the source of a cutover or an abort, or the one
      a pending cleanup names; and no migration runs while a cleanup is pending. */
  lemma {:induction false} NoOrphanedFence(owner: ShardId, run: seq<Event>, shard: ShardId)
    requires ClaimsAreFresh(Start(owner), run)
    ensures var s := After(owner, run);
      shard in s.fenced ==>
        (s.row.status in {Cutover, Aborting} && shard == s.row.owner) || s.row.cleanup == Some(shard)
    ensures var s := After(owner, run); s.row.status != NoMigration ==> s.row.cleanup.None?
    ensures var s := After(owner, run); s.row.status == NoMigration ==> s.row.owner !in s.fenced
  {
    RunKeepsInv(Start(owner), run);
    var s := After(owner, run);
    if shard in s.fenced { assert FenceOk(s, shard); }
    if s.row.owner in s.fenced { assert FenceOk(s, s.row.owner); }
  }

  lemma OnlyTheFlipMovesTheOwner(s: Sys, e: Event)
    requires Next(s, e).row.owner != s.row.owner
    ensures s.pc.ConfirmingLock? && StillCutover(s.row, s.pc.source, s.pc.target)
    ensures Next(s, e) == s.(row := Flipped(s.row, s.pc.source, s.pc.target), pc := CleanupDeleting(s.pc.source))
  {
    if e.Tick? {
      assert s.pc.CheckingSource? || s.pc.CheckingTarget? || s.pc.Comparing? || s.pc.ConfirmingLock?;
    }
  }

  /** The owner changes only to the migration's target, when the source is fenced, holds
      no prepared intent and the lock is held; the new owner is not fenced. */
  lemma {:induction false} FlipIsGuarded(owner: ShardId, run: seq<Event>, e: Event)
    requires ClaimsAreFresh(Start(owner), run)
    requires Next(After(owner, run), e).row.owner != After(owner, run).row.owner
    ensures var s := After(owner, run); var s' := Next(s, e);
      && s.row.status == Cutover && s'.row.owner == s.row.target && s'.row.cleanup == Some(s.row.owner)
      && s.row.owner in s.fenced && !HasPrepared(s, s.row.owner) && s'.row.owner !in s'.fenced
    ensures ChecksAreClean(Start(owner), run, 0) ==> var s := After(owner, run); s.Rows(s.row.owner) == s.Rows(s.row.target)
  {
    var s := After(owner, run);
    OnlyTheFlipMovesTheOwner(s, e);
    RunKeepsInv(Start(owner), run);
    assert s.row.target in s.fenced ==> FenceOk(s, s.row.target);
    if ChecksAreClean(Start(owner), run, 0) { RunKeepsSafe(Start(owner), run, 0); }
  }

  /** The shard whose rows the next remote call deletes, if it deletes any. */
  function Deleting(s: Sys): Option<ShardId> {
    if s.pc.CleanupDeleting? then Some(s.pc.source)
    else if s.pc.RewindWiping? || s.pc.AbortWiping? then Some(s.pc.target)
    else None
  }

  /** Rows are deleted only where no client can put any: not on the owner, under no
      prepared intent, and every route still leading there meets the fence. */
  lemma {:induction false} DeletedShardIsUnreachable(owner: ShardId, run: seq<Event>, r: Route)
    requires ClaimsAreFresh(Start(owner), run) && Deleting(After(owner, run)).Some?
    ensures var s := After(owner, run); var shard := Deleting(s).value;
      shard != s.row.owner && !HasPrepared(s, shard) && (r in s.routes && r.shard == shard ==> shard in s.fenced)
  {
    RunKeepsInv(Start(owner), run);
    var s := After(owner, run);
    if r in s.routes { assert RouteOk(s, r); }
  }
}
