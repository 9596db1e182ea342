/** When a cutover can end: exactly when the mirrors its source still owes can all be
    delivered. */
module MigrationEnds {
  import opened Basics
  import opened MigrationSpec
  import opened Migration
  import opened MigrationLimits

  // ---- deliveries ----

  /** Jobs that some shard may still run: queued, or on their way. */
  predicate Outstanding(s: Sys, id: nat) { id < |s.jobs| && (id in s.queue || id in s.wire) }

  predicate AreJobs(s: Sys, order: seq<nat>) { forall i | 0 <= i < |order| :: order[i] < |s.jobs| }

  /** The rows and the recorded request ids after attempting these deliveries; an attempt
      that fails changes nothing. */
  function LandAll(s: Sys, order: seq<nat>): (s': Sys)
    requires AreJobs(s, order)
    ensures s'.jobs == s.jobs
  {
    if order == [] then s else LandStep(LandAll(s, order[..|order| - 1]), order[|order| - 1])
  }

  predicate Order(s: Sys, order: seq<nat>) { forall i | 0 <= i < |order| :: Outstanding(s, order[i]) }

  /** In some order of deliveries every mirror the source still has queued is applied. */
  ghost predicate Deliverable(s: Sys) {
    exists order: seq<nat> :: Order(s, order) && Queued(s, s.row.owner) <= LandAll(s, order).applied
  }

  // ---- what can happen while the cutover waits ----

  /** A cutover whose source is fenced, without prepared intents, before the drain is found
      done. */
  ghost predicate Waiting(s: Sys) {
    && Inv(s) && s.row.status == Cutover && s.row.owner in s.fenced && s.prepared == map[]
    && (s.pc.Resting? || s.pc.Fencing? || s.pc.Draining?)
  }

  /** The same cutover, after these deliveries. */
  ghost predicate Since(s: Sys, s': Sys, order: seq<nat>)
    requires Order(s, order)
  {
    && s'.row == s.row && s'.jobs == s.jobs
    && s'.rows == LandAll(s, order).rows && s'.applied == LandAll(s, order).applied
    && s'.queue <= s.queue && s.queue - s'.queue <= s'.applied && s'.wire <= s.queue + s.wire
  }

  ghost predicate StillWaits(s: Sys, s': Sys) { Waiting(s') && exists order: seq<nat> :: Order(s, order) && Since(s, s', order) }

  lemma {:induction false} LandAllKeeps(s: Sys, order: seq<nat>)
    requires Order(s, order)
    ensures var s' := LandAll(s, order);
      s'.row == s.row && s'.queue == s.queue && s'.wire == s.wire && s'.jobs == s.jobs && s'.fenced == s.fenced
      && s'.prepared == s.prepared && s'.pc == s.pc && s'.routes == s.routes && s.applied <= s'.applied
  {
    if order != [] { LandAllKeeps(s, order[..|order| - 1]); }
  }

  /** A landing depends on the rows, the jobs and the recorded ids only. */
  lemma LandSame(a: Sys, b: Sys, id: nat)
    requires a.jobs == b.jobs && a.rows == b.rows && a.applied == b.applied && id < |a.jobs|
    ensures LandStep(a, id).rows == LandStep(b, id).rows && LandStep(a, id).applied == LandStep(b, id).applied
  {
  }

  lemma {:induction false} LandAllMore(s: Sys, order: seq<nat>, id: nat)
    requires Order(s, order) && Outstanding(s, id)
    ensures Order(s, order + [id]) && LandAll(s, order + [id]) == LandStep(LandAll(s, order), id)
  {
    assert (order + [id])[..|order + [id]| - 1] == order;
  }

  lemma LandOnly(s: Sys, id: nat)
    requires id < |s.jobs|
    ensures var s' := LandStep(s, id); s'.row == s.row && s'.jobs == s.jobs && s'.queue == s.queue && s'.wire == s.wire && s.applied <= s'.applied
  {
  }

  lemma {:induction false} LandOneMore(s: Sys, s': Sys, order: seq<nat>, id: nat)
    requires Order(s, order) && Since(s, s', order) && Outstanding(s, id)
    ensures Order(s, order + [id]) && Since(s, LandStep(s', id), order + [id])
  {
    LandAllMore(s, order, id);
    LandSame(LandAll(s, order), s', id);
    LandOnly(s', id);
  }

  lemma LandStaysWaiting(s: Sys, id: nat)
    requires Waiting(s) && id in s.wire && id < |s.jobs|
    ensures Waiting(LandStep(s, id))
  {
    NextKeepsInv(s, Land(id));
  }

  lemma LandMore(s: Sys, s': Sys, id: nat)
    requires StillWaits(s, s') && id in s'.wire && id < |s'.jobs|
    ensures StillWaits(s, LandStep(s', id))
  {
    var order: seq<nat> :| Order(s, order) && Since(s, s', order);
    LandOneMore(s, s', order, id);
    LandStaysWaiting(s', id);
  }

  /** Events that touch neither rows nor recorded ids keep the deliveries made so far. */
  lemma SinceStays(s: Sys, s': Sys, s'': Sys)
    requires StillWaits(s, s') && Waiting(s'')
    requires s''.row == s'.row && s''.jobs == s'.jobs && s''.rows == s'.rows && s''.applied == s'.applied
    requires s''.queue <= s'.queue && s'.queue - s''.queue <= s'.applied && s''.wire <= s'.wire + s'.queue
    ensures StillWaits(s, s'')
  {
    var order: seq<nat> :| Order(s, order) && Since(s, s', order);
    assert Since(s, s'', order);
  }

  /** No client gets through: routes lead to the fenced source. */
  lemma ClientsAreRefused(s: Sys, e: Event)
    requires Waiting(s) && (e.ArriveWrite? || e.ArrivePrepare? || e.CommitIntent?)
    ensures Next(s, e) == s
  {
    if e.ArriveWrite? && e.route in s.routes { assert RouteOk(s, e.route); }
    if e.ArrivePrepare? && e.route in s.routes { assert RouteOk(s, e.route); }
  }

  lemma WaitingTick(s: Sys, s': Sys, e: Event)
    requires StillWaits(s, s') && e.Tick?
    ensures StillWaits(s, Next(s', e)) || Deliverable(s)
  {
    NextKeepsInv(s', e);
    if s'.pc.Draining? && Queued(s', s'.pc.source) == {} {
      var order: seq<nat> :| Order(s, order) && Since(s, s', order);
      assert forall id | id in s'.queue && id < |s'.jobs| :: s'.jobs[id].source != s'.pc.source by {
        assert forall id | id in s'.queue && id < |s'.jobs| && s'.jobs[id].source == s'.pc.source :: id in Queued(s', s'.pc.source);
      }
    } else {
      SinceStays(s, s', Next(s', e));
    }
  }

  lemma WaitingStep(s: Sys, s': Sys, e: Event)
    requires StillWaits(s, s') && !e.RequestAbort?
    ensures StillWaits(s, Next(s', e)) || Deliverable(s)
  {
    if e.Tick? { WaitingTick(s, s', e); }
    else if e.Land? { if e.job in s'.wire && e.job < |s'.jobs| { LandMore(s, s', e.job); } }
    else if e.ArriveWrite? || e.ArrivePrepare? || e.CommitIntent? { ClientsAreRefused(s', e); }
    else if e.Claim? { assert Next(s', e) == s'; }
    else {
      NextKeepsInv(s', e);
      SinceStays(s, s', Next(s', e));
    }
  }

  predicate AbortFree(run: seq<Event>) { forall n: nat | n < |run| :: !run[n].RequestAbort? }

  lemma {:induction false} WaitsUnlessDeliverable(s: Sys, run: seq<Event>)
    requires Waiting(s) && AbortFree(run)
    ensures StillWaits(s, From(s, run)) || Deliverable(s)
  {
    if run == [] {
      assert Order(s, []) && Since(s, s, []);
    } else {
      var n := |run| - 1;
      WaitsUnlessDeliverable(s, run[..n]);
      if !Deliverable(s) { WaitingStep(s, From(s, run[..n]), run[n]); }
    }
  }

  // ---- and it does end ----

  lemma {:induction false} Then(s: Sys, run: seq<Event>, e: Event) returns (longer: seq<Event>)
    requires AbortFree(run) && !e.RequestAbort?
    ensures AbortFree(longer) && From(s, longer) == Next(From(s, run), e)
  {
    longer := run + [e];
    FromStep(s, run, e);
  }

  function SetOf(ids: seq<nat>): set<nat> { set id | id in ids }

  lemma {:induction false} RunDeliversOne(s: Sys, at: Sys, run: seq<Event>, id: nat) returns (longer: seq<Event>)
    requires AbortFree(run) && From(s, run) == at && Outstanding(at, id)
    ensures AbortFree(longer) && From(s, longer) == LandStep(at, id).(wire := at.wire + {id})
  {
    longer := run;
    if id in at.queue { longer := Then(s, run, BeginDelivery(id)); }
    assert From(s, longer) == at.(wire := at.wire + {id});
    longer := Then(s, longer, Land(id));
  }

  /** A run that makes exactly these deliveries. */
  lemma {:induction false} RunDelivers(s: Sys, order: seq<nat>) returns (run: seq<Event>)
    requires Order(s, order)
    ensures AbortFree(run) && From(s, run) == LandAll(s, order).(wire := s.wire + SetOf(order))
  {
    if order == [] {
      run := [];
      assert s.wire + SetOf([]) == s.wire;
    } else {
      var n, id := |order| - 1, order[|order| - 1];
      var before := RunDelivers(s, order[..n]);
      LandAllKeeps(s, order[..n]);
      run := RunDeliversOne(s, LandAll(s, order[..n]).(wire := s.wire + SetOf(order[..n])), before, id);
      LastLanding(s, order);
    }
  }

  lemma {:induction false} LastLanding(s: Sys, order: seq<nat>)
    requires Order(s, order) && order != []
    ensures var n := |order| - 1; var at := LandAll(s, order[..n]).(wire := s.wire + SetOf(order[..n]));
      LandStep(at, order[n]).(wire := at.wire + {order[n]}) == LandAll(s, order).(wire := s.wire + SetOf(order))
  {
    var n := |order| - 1;
    assert SetOf(order) == SetOf(order[..n]) + {order[n]};
    assert s.wire + SetOf(order[..n]) + {order[n]} == s.wire + SetOf(order);
  }

  /** A run that confirms every applied job of this set. */
  lemma {:induction false} RunConfirms(s: Sys, ids: set<nat>) returns (run: seq<Event>)
    requires ids <= s.applied
    ensures AbortFree(run) && From(s, run) == s.(queue := s.queue - ids)
  {
    if ids == {} {
      run := [];
      assert s.queue - {} == s.queue;
    } else {
      var id :| id in ids;
      run := RunConfirms(s, ids - {id});
      run := Then(s, run, Confirm(id));
      assert s.queue - ids == (s.queue - (ids - {id})) - {id};
    }
  }

  function At(s: Sys, pc: Pc): Sys { s.(pc := pc) }

  lemma StepTo(s: Sys, pc: Pc, next: Pc)
    requires s.row.status == Cutover && s.row.cleanup.None? && s.row.owner in s.fenced && Queued(s, s.row.owner) == {} && !HasPrepared(s, s.row.owner)
    requires var o, t := s.row.owner, s.row.target;
      || (pc == Resting && next == Fencing(o, t)) || (pc == Fencing(o, t) && next == Draining(o, t)) || (pc == Draining(o, t) && next == Counting(o, t))
      || (pc == Counting(o, t) && next == CheckingSource(o, t)) || (pc == CheckingSource(o, t) && next == CheckingTarget(o, t, s.Rows(o)))
    ensures Next(At(s, pc), GoOn) == At(s, next)
  {
    assert s.fenced + {s.row.owner} == s.fenced;
    assert Queued(At(s, pc), s.row.owner) == Queued(s, s.row.owner);
    assert HasPrepared(At(s, pc), s.row.owner) ==> HasPrepared(s, s.row.owner);
  }

  lemma Moves(s: Sys, run: seq<Event>, pc: Pc, next: Pc) returns (longer: seq<Event>)
    requires AbortFree(run) && From(s, run) == At(s, pc) && Next(At(s, pc), GoOn) == At(s, next)
    ensures AbortFree(longer) && From(s, longer) == At(s, next)
  {
    longer := Then(s, run, GoOn);
  }

  /** With nothing queued any more, the next tick goes through the drain. */
  lemma RunDrains(s: Sys) returns (run: seq<Event>)
    requires Waiting(s) && Queued(s, s.row.owner) == {}
    ensures AbortFree(run) && From(s, run) == At(s, CheckingTarget(s.row.owner, s.row.target, s.Rows(s.row.owner)))
  {
    var o, t := s.row.owner, s.row.target;
    run := Then(s, [], Crash);
    StepTo(s, Resting, Fencing(o, t));
    run := Moves(s, run, Resting, Fencing(o, t));
    StepTo(s, Fencing(o, t), Draining(o, t));
    run := Moves(s, run, Fencing(o, t), Draining(o, t));
    StepTo(s, Draining(o, t), Counting(o, t));
    run := Moves(s, run, Draining(o, t), Counting(o, t));
    StepTo(s, Counting(o, t), CheckingSource(o, t));
    run := Moves(s, run, Counting(o, t), CheckingSource(o, t));
    StepTo(s, CheckingSource(o, t), CheckingTarget(o, t, s.Rows(o)));
    run := Moves(s, run, CheckingSource(o, t), CheckingTarget(o, t, s.Rows(o)));
  }

  lemma {:induction false} RunRewinds(s: Sys) returns (run: seq<Event>)
    requires StillCutover(s.row, s.row.owner, s.row.target) && s.pc == RewindUnfencing(s.row.owner, s.row.target)
    ensures AbortFree(run) && From(s, run).row.status == Backfilling
  {
    run := Then(s, [], GoOn);
    assert From(s, run).row == s.row && From(s, run).pc == RewindPurging(s.row.owner, s.row.target);
    run := Then(s, run, GoOn);
    assert From(s, run).row == s.row && From(s, run).pc == RewindWiping(s.row.owner, s.row.target);
    run := Then(s, run, GoOn);
  }

  lemma {:induction false} RunCompares(s: Sys) returns (run: seq<Event>)
    requires s.row.status == Cutover && s.pc == CheckingTarget(s.row.owner, s.row.target, s.Rows(s.row.owner))
    ensures AbortFree(run) && From(s, run) == At(s, if s.Rows(s.row.owner) == s.Rows(s.row.target)
                                                   then ConfirmingLock(s.row.owner, s.row.target) else RewindUnfencing(s.row.owner, s.row.target))
  {
    run := Then(s, [], GoOn);
    assert From(s, run) == At(s, Comparing(s.row.owner, s.row.target, s.Rows(s.row.owner), s.Rows(s.row.target)));
    run := Then(s, run, GoOn);
  }

  /** Past the drain, a tick flips or rewinds. */
  lemma {:induction false} RunLeaves(s: Sys) returns (run: seq<Event>)
    requires s.row.status == Cutover && s.pc == CheckingTarget(s.row.owner, s.row.target, s.Rows(s.row.owner))
    ensures AbortFree(run) && From(s, run).row.status != Cutover
  {
    run := RunCompares(s);
    if s.Rows(s.row.owner) == s.Rows(s.row.target) {
      run := Then(s, run, GoOn);
    } else {
      var more := RunRewinds(From(s, run));
      JoinRuns(s, run, more);
      run := run + more;
    }
  }

  lemma {:induction false} JoinRuns(s: Sys, a: seq<Event>, b: seq<Event>)
    requires AbortFree(a) && AbortFree(b)
    ensures AbortFree(a + b) && From(s, a + b) == From(From(s, a), b)
  {
    FromJoin(s, a, b);
  }

  lemma DeliverableEnds(s: Sys) returns (run: seq<Event>)
    requires Waiting(s) && Deliverable(s)
    ensures AbortFree(run) && From(s, run).row.status != Cutover
  {
    var order: seq<nat> :| Order(s, order) && Queued(s, s.row.owner) <= LandAll(s, order).applied;
    run := RunDelivers(s, order);
    LandAllKeeps(s, order);
    var s1 := From(s, run);
    var confirms := RunConfirms(s1, Queued(s, s.row.owner));
    JoinRuns(s, run, confirms);
    run := run + confirms;
    var s2 := From(s, run);
    StaysWaiting(s, s2);
    var drains := RunDrains(s2);
    JoinRuns(s, run, drains);
    run := run + drains;
    var leaves := RunLeaves(From(s, run));
    JoinRuns(s, run, leaves);
    run := run + leaves;
  }

  lemma StaysWaiting(s: Sys, s': Sys)
    requires Waiting(s) && s'.row == s.row && s'.jobs == s.jobs && s'.pc == s.pc && s'.fenced == s.fenced && s'.prepared == s.prepared && s'.routes == s.routes
    requires s'.queue == s.queue - Queued(s, s.row.owner)
    ensures Waiting(s') && Queued(s', s'.row.owner) == {}
  {
    forall r | r in s'.routes ensures RouteOk(s', r) { assert RouteOk(s, r); }
    forall x | x in s'.fenced ensures FenceOk(s', x) { assert FenceOk(s, x); }
  }

  /** A waiting cutover can end without an operator's abort if and only if its source's
      queued mirrors can all be delivered, in some order. */
  lemma {:induction false} CutoverEndsIff(s: Sys)
    requires Waiting(s)
    ensures (exists run: seq<Event> :: AbortFree(run) && From(s, run).row.status != Cutover) <==> Deliverable(s)
  {
    if Deliverable(s) { var run := DeliverableEnds(s); }
    if run: seq<Event> :| AbortFree(run) && From(s, run).row.status != Cutover { WaitsUnlessDeliverable(s, run); }
  }

  // ---- a guard that can be checked: plain inserts ----

  /** Never an error, and no row removed: an upsert, or an update that changes no key. */
  ghost predicate Harmless(stmt: Stmt) { forall c: Content :: !stmt(c).Failed? && c.Keys <= Run(stmt, c).Keys }

  ghost predicate InsertsKey(stmt: Stmt, key: Key) { exists row: Row :: Inserts(stmt, key, row) }

  ghost predicate IsInsert(stmt: Stmt) { exists key: Key :: InsertsKey(stmt, key) }

  /** Every mirror under way is a plain insert or harmless. */
  ghost predicate NoDeletes(s: Sys) { forall id: nat | Outstanding(s, id) :: Harmless(s.jobs[id].stmt) || IsInsert(s.jobs[id].stmt) }

  /** A queued plain insert of this key that its target has not recorded. */
  ghost predicate OwesInsert(s: Sys, id: nat, key: Key) {
    id in Queued(s, s.row.owner) && id !in s.applied && InsertsKey(s.jobs[id].stmt, key)
  }

  ghost predicate NoDuplicate(s: Sys) {
    && (forall id: nat, key: Key | OwesInsert(s, id, key) :: key !in s.Rows(s.jobs[id].target).Keys)
    && (forall a: nat, b: nat, key: Key | OwesInsert(s, a, key) && OwesInsert(s, b, key) && s.jobs[a].target == s.jobs[b].target :: a == b)
  }

  lemma InsertAt(stmt: Stmt, key: Key, c: Content)
    requires InsertsKey(stmt, key)
    ensures stmt(c).Failed? <==> key in c
    ensures stmt(c).Failed? || (stmt(c).Touched? && stmt(c).content.Keys == c.Keys + {key})
  {
    var row: Row :| Inserts(stmt, key, row);
    assert c[key := row].Keys == c.Keys + {key};
  }

  lemma InsertKeepsKeys(stmt: Stmt, c: Content)
    requires Harmless(stmt) || IsInsert(stmt)
    ensures c.Keys <= Run(stmt, c).Keys
  {
    if !Harmless(stmt) {
      var key: Key :| InsertsKey(stmt, key);
      InsertAt(stmt, key, c);
    }
  }

  /** No delivery removes a row. */
  lemma {:induction false} KeysStay(s: Sys, order: seq<nat>, shard: ShardId)
    requires Order(s, order) && NoDeletes(s)
    ensures s.Rows(shard).Keys <= LandAll(s, order).Rows(shard).Keys
  {
    if order != [] {
      var id := order[|order| - 1];
      KeysStay(s, order[..|order| - 1], shard);
      assert Outstanding(s, id);
      InsertKeepsKeys(s.jobs[id].stmt, LandAll(s, order[..|order| - 1]).Rows(shard));
    }
  }

  lemma OneLanding(s: Sys, id: nat, key: Key)
    requires id < |s.jobs| && id !in s.applied && InsertsKey(s.jobs[id].stmt, key)
    ensures id in LandStep(s, id).applied <==> key !in s.Rows(s.jobs[id].target).Keys
    ensures id in LandStep(s, id).applied ==> key in LandStep(s, id).Rows(s.jobs[id].target).Keys
  {
    InsertAt(s.jobs[id].stmt, key, s.Rows(s.jobs[id].target));
  }

  /** A delivered insert has its key on the target; before that the key was not there. */
  lemma {:induction false} DeliveredInsert(s: Sys, order: seq<nat>, id: nat, key: Key)
    requires Order(s, order) && NoDeletes(s) && id < |s.jobs| && id !in s.applied && InsertsKey(s.jobs[id].stmt, key)
    ensures id in LandAll(s, order).applied ==>
      key in LandAll(s, order).Rows(s.jobs[id].target).Keys && key !in s.Rows(s.jobs[id].target).Keys
  {
    if order != [] {
      var before, last := order[..|order| - 1], order[|order| - 1];
      DeliveredInsert(s, before, id, key);
      var at := LandAll(s, before);
      KeysStay(s, before, s.jobs[id].target);
      assert Outstanding(s, last);
      if last == id && id !in at.applied { OneLanding(at, id, key); }
      else { InsertKeepsKeys(s.jobs[last].stmt, at.Rows(s.jobs[id].target)); }
    }
  }

  lemma {:induction false} NotBoth(s: Sys, order: seq<nat>, a: nat, b: nat, key: Key)
    requires Order(s, order) && NoDeletes(s) && a < |s.jobs| && b < |s.jobs| && a !in s.applied && b !in s.applied && a != b
    requires InsertsKey(s.jobs[a].stmt, key) && InsertsKey(s.jobs[b].stmt, key) && s.jobs[a].target == s.jobs[b].target
    ensures !(a in LandAll(s, order).applied && b in LandAll(s, order).applied)
  {
    if order != [] {
      var before, last := order[..|order| - 1], order[|order| - 1];
      NotBoth(s, before, a, b, key);
      DeliveredInsert(s, before, a, key);
      DeliveredInsert(s, before, b, key);
      var at := LandAll(s, before);
      if last == a && a !in at.applied { OneLanding(at, a, key); }
      if last == b && b !in at.applied { OneLanding(at, b, key); }
    }
  }

  /** The keys that these inserts bring to a shard. */
  ghost predicate Brings(s: Sys, ids: set<nat>, shard: ShardId, key: Key) {
    exists id | id in ids :: OwesInsert(s, id, key) && s.jobs[id].target == shard
  }

  ghost predicate OnlyBrought(s: Sys, s': Sys, ids: set<nat>)
  {
    forall shard: ShardId, key: Key | key in s'.Rows(shard).Keys :: key in s.Rows(shard).Keys || Brings(s, ids, shard, key)
  }

  lemma {:induction false} OneInsertLands(s: Sys, before: seq<nat>, ids: set<nat>, id: nat, key: Key)
    requires NoDuplicate(s) && id in ids && OwesInsert(s, id, key) && Order(s, before)
    requires ids - {id} <= LandAll(s, before).applied <= s.applied + (ids - {id}) && OnlyBrought(s, LandAll(s, before), ids - {id})
    ensures Order(s, before + [id]) && ids <= LandAll(s, before + [id]).applied <= s.applied + ids && OnlyBrought(s, LandAll(s, before + [id]), ids)
  {
    assert (before + [id])[..|before + [id]| - 1] == before;
    var at := LandAll(s, before);
    assert !Brings(s, ids - {id}, s.jobs[id].target, key);
    OneLanding(at, id, key);
    OneInsertMore(s, at, ids, id, key);
  }

  /** Without a duplicate, the owed inserts can all be delivered, one after the other. */
  lemma {:induction false} InsertsDeliver(s: Sys, ids: set<nat>) returns (order: seq<nat>)
    requires NoDuplicate(s) && forall id | id in ids :: exists key: Key :: OwesInsert(s, id, key)
    ensures Order(s, order) && ids <= LandAll(s, order).applied <= s.applied + ids && OnlyBrought(s, LandAll(s, order), ids)
  {
    if ids == {} {
      order := [];
    } else {
      var id :| id in ids;
      var key: Key :| OwesInsert(s, id, key);
      var before := InsertsDeliver(s, ids - {id});
      OneInsertLands(s, before, ids, id, key);
      order := before + [id];
    }
  }

  lemma OneInsertMore(s: Sys, at: Sys, ids: set<nat>, id: nat, key: Key)
    requires at.jobs == s.jobs && id in ids && OwesInsert(s, id, key) && id !in at.applied && OnlyBrought(s, at, ids - {id})
    ensures OnlyBrought(s, LandStep(at, id), ids)
  {
    var s' := LandStep(at, id);
    InsertAt(s.jobs[id].stmt, key, at.Rows(s.jobs[id].target));
    forall shard: ShardId, k: Key | k in s'.Rows(shard).Keys ensures k in s.Rows(shard).Keys || Brings(s, ids, shard, k) {
      if k in at.Rows(shard).Keys {
        if Brings(s, ids - {id}, shard, k) { assert Brings(s, ids, shard, k); }
      } else {
        assert k == key && shard == s.jobs[id].target;
      }
    }
  }

  /** Harmless mirrors can be delivered at any time. */
  lemma {:induction false} HarmlessDeliver(s: Sys, first: seq<nat>, ids: set<nat>) returns (order: seq<nat>)
    requires Order(s, first) && forall id | id in ids :: Outstanding(s, id) && (Harmless(s.jobs[id].stmt) || id in LandAll(s, first).applied)
    ensures Order(s, order) && ids + LandAll(s, first).applied <= LandAll(s, order).applied
  {
    if ids == {} {
      order := first;
    } else {
      var id :| id in ids;
      var before := HarmlessDeliver(s, first, ids - {id});
      order := before + [id];
      assert order[..|order| - 1] == before;
    }
  }

  lemma DuplicatesBlock(s: Sys, order: seq<nat>)
    requires Order(s, order) && NoDeletes(s) && Queued(s, s.row.owner) <= LandAll(s, order).applied
    ensures NoDuplicate(s)
  {
    forall id: nat, key: Key | OwesInsert(s, id, key) ensures key !in s.Rows(s.jobs[id].target).Keys { DeliveredInsert(s, order, id, key); }
    forall a: nat, b: nat, key: Key | OwesInsert(s, a, key) && OwesInsert(s, b, key) && s.jobs[a].target == s.jobs[b].target ensures a == b {
      if a != b { NotBoth(s, order, a, b, key); }
    }
  }

  lemma NoDuplicateDelivers(s: Sys)
    requires NoDeletes(s) && NoDuplicate(s)
    ensures Deliverable(s)
  {
    var owed := set id | id in Queued(s, s.row.owner) && id !in s.applied && IsInsert(s.jobs[id].stmt);
    forall id | id in owed ensures exists key: Key :: OwesInsert(s, id, key) {
      var key: Key :| InsertsKey(s.jobs[id].stmt, key);
      assert OwesInsert(s, id, key);
    }
    var first := InsertsDeliver(s, owed);
    LandAllKeeps(s, first);
    forall id | id in Queued(s, s.row.owner) ensures Outstanding(s, id) && (Harmless(s.jobs[id].stmt) || id in LandAll(s, first).applied) {
      if id !in s.applied && !Harmless(s.jobs[id].stmt) { assert id in owed; }
    }
    var order := HarmlessDeliver(s, first, Queued(s, s.row.owner));
  }

  /** So, when the mirrors under way are plain inserts and harmless statements, a waiting
      cutover can end if and only if no queued insert is of a key its target already holds,
      and no two are of the same key. */
  lemma {:induction false} CutoverEndsIffNoDuplicate(s: Sys)
    requires Waiting(s) && NoDeletes(s)
    ensures (exists run: seq<Event> :: AbortFree(run) && From(s, run).row.status != Cutover) <==> NoDuplicate(s)
  {
    CutoverEndsIff(s);
    if NoDuplicate(s) { NoDuplicateDelivers(s); }
    if Deliverable(s) {
      var order: seq<nat> :| Order(s, order) && Queued(s, s.row.owner) <= LandAll(s, order).applied;
      DuplicatesBlock(s, order);
    }
  }
}
