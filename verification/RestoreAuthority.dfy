/** The restore authority as an object: rows and the gate updated in place, one statement
    after another, each request proved to have the effect of its event. */
module RestoreAuthority {
  import opened Basics
  import opened RestoreSpec
  import opened Restore
  import opened RestoreProgress

  const MAX_RESTORE_RETRY_ATTEMPTS := 10
  const MAX_RESTORE_RETRY_DELAY_MS := 30_000
  const RESTORE_ALARM_DELAY_MS := 250

  /** The guards of a rollback request, in the order they are checked. */
  method MayRollBack(op: Op, undoValid: bool) returns (may: bool)
    requires IsFenced(op.stage)
    ensures may <==> undoValid && CanRollBack(op)
  {
    if IsRollback(op.stage) || !undoValid { return false; }
    if SomeStatus(op, {Released}) { return false; }
    if SomeWork(op, Discarded) { return false; }
    may := exists p | p in op.participants :: op.participants[p].undo;
  }

  class Authority {
    var operations: map<RestoreId, Op>
    var active: Option<RestoreId>
    var generation: nat
    var registry: set<Name>
    var retryCount: map<RestoreId, nat>
    ghost var inventory: map<RestoreId, set<Name>>

    ghost function View(): Sys
      reads this
    {
      Sys(operations, Gate(active, generation), registry, inventory)
    }

    ghost predicate Valid()
      reads this
    {
      Inv(View()) && forall id | id in retryCount :: retryCount[id] < MAX_RESTORE_RETRY_ATTEMPTS
    }

    constructor ()
      ensures Valid() && View() == Start
    {
      operations, active, generation, registry, retryCount, inventory := map[], None, 0, {}, map[], map[];
    }

    // ---- statements ----

    method SetStage(id: RestoreId, stage: Stage)
      requires id in operations
      modifies this`operations
      ensures operations == old(operations)[id := old(operations)[id].(stage := stage)]
    {
      operations := operations[id := operations[id].(stage := stage)];
    }

    method SetStatus(id: RestoreId, p: Name, status: Status)
      requires id in operations && p in operations[id].participants
      modifies this`operations
      ensures operations == old(operations)[id := Mark(old(operations)[id], p, status)]
    {
      operations := operations[id := Mark(operations[id], p, status)];
    }

    method SetWork(id: RestoreId, c: Name, status: WorkStatus)
      requires id in operations
      modifies this`operations
      ensures operations == old(operations)[id := old(operations)[id].(work := old(operations)[id].work[c := status])]
    {
      operations := operations[id := operations[id].(work := operations[id].work[c := status])];
    }

    /** End an operation and open the gate in one transaction. */
    method Finish(id: RestoreId, stage: Stage)
      requires active == Some(id) && id in operations && !IsFenced(stage)
      modifies this`operations, this`active
      ensures View() == Store(old(View()), old(operations)[id].(stage := stage))
    {
      SetStage(id, stage);
      active := None;
    }

    // ---- requests ----

    /** A preview that was built; the reading of the manifest is not part of this model. */
    method Preview(id: RestoreId, participants: set<Name>, records: set<Name>)
      requires Valid()
      modifies this`operations
      ensures Valid() && View() == Next(old(View()), Event.Preview(id, participants, records))
    {
      NextKeeps(View(), Event.Preview(id, participants, records));
      if id in operations { return; }
      operations := operations[id := Op(Previewed, None, None, map p | p in participants :: Participant(PPreviewed, false), records, map[])];
    }

    /** The inventory's own statements: insert or ignore, then send the stage back. */
    method TakeInventory(id: RestoreId, c: Name)
      requires id in operations && (operations[id].stage == ManualRepair ==> operations[id].resume.Some?)
      modifies this`operations
      ensures operations == old(operations)[id := Inventoried(old(operations)[id], c)]
    {
      var alreadyInventoried := c in operations[id].work;
      if alreadyInventoried { return; }
      SetWork(id, c, PendingLoss);
      if operations[id].stage in {Restoring, Reconciling, Verifying, Discarding, Releasing} {
        SetStage(id, MaterializingLoss);
      } else if operations[id].stage == ManualRepair && !IsRollback(operations[id].resume.value) {
        operations := operations[id := operations[id].(resume := Some(MaterializingLoss))];
      }
    }

    method RegisterCoordinator(c: Name, existing: bool) returns (registered: bool)
      requires Valid()
      modifies this`operations, this`registry, this`inventory
      ensures Valid() && View() == Next(old(View()), Register(c, existing))
      ensures registered ==> c in registry && (active.Some? ==> c in operations[active.value].work)
      ensures !registered ==> View() == old(View())
    {
      ghost var before := View();
      NextKeeps(before, Register(c, existing));
      if active.None? {
        registry := registry + {c};
        return true;
      }
      var id := active.value;
      assert GateOk(before, id) && OpOk(operations[id]);
      if RegistrationRefused(operations[id], existing) { return false; }
      ghost var op := operations[id];
      InventoriedIsOk(op, c);
      TakeInventory(id, c);
      registry := registry + {c};
      inventory := inventory[id := (if id in inventory then inventory[id] else {}) + {c}];
      assert Store(before, Inventoried(op, c)) == before.(ops := before.ops[id := Inventoried(op, c)]);
      assert View() == RegisterStep(before, c, existing);
      return true;
    }

    /** The gate, the operation's stage and its inventory, in one transaction. */
    method InstallFence(id: RestoreId)
      requires id in operations
      modifies this`operations, this`active, this`generation
      ensures active == Some(id) && generation == old(generation) + 1
      ensures operations == old(operations)[id := Executed(old(operations)[id], generation, registry)]
    {
      generation := generation + 1;
      active := Some(id);
      SetStage(id, FencingCatalogs);
      operations := operations[id := operations[id].(generation := Some(generation))];
      var work := operations[id].work;
      operations := operations[id := operations[id].(work := map c | c in work.Keys + registry :: if c in work then work[c] else PendingLoss)];
    }

    method Execute(id: RestoreId) returns (started: bool)
      requires Valid()
      modifies this`operations, this`active, this`generation, this`inventory
      ensures Valid() && View() == Next(old(View()), Event.Execute(id))
      ensures started <==> old(active.None? && id in operations && operations[id].stage == Previewed)
      ensures started ==> active == Some(id) && generation == old(generation) + 1 && registry <= operations[id].work.Keys
    {
      ghost var before := View();
      NextKeeps(before, Event.Execute(id));
      if id !in operations || operations[id].stage != Previewed { return false; }
      if active.Some? { return false; }
      InstallFence(id);
      inventory := inventory[id := registry];
      assert View() == Next(before, Event.Execute(id));
      return true;
    }

    method ParkForManualRepair(id: RestoreId)
      requires Valid() && active == Some(id)
      modifies this`operations, this`retryCount
      ensures Valid() && View() == Next(old(View()), Event.Advance(Park, "", false))
      ensures operations[id].stage == ManualRepair
      ensures old(operations[id].stage) != ManualRepair ==> operations[id].resume == Some(old(operations[id].stage))
    {
      NextKeeps(View(), Event.Advance(Park, "", false));
      assert GateOk(View(), id);
      if operations[id].stage == ManualRepair { return; }
      operations := operations[id := operations[id].(stage := ManualRepair, resume := Some(operations[id].stage))];
      retryCount := retryCount[id := 0];
    }

    /** A retryable failure is tried again with doubling delays, the tenth in a row and
        every other failure is parked. */
    method RetryOrPark(id: RestoreId, retryable: bool) returns (delayMs: Option<nat>)
      requires Valid() && active == Some(id)
      modifies this`operations, this`retryCount
      ensures Valid()
      ensures var parks := !retryable || (id in old(retryCount) && old(retryCount[id]) == MAX_RESTORE_RETRY_ATTEMPTS - 1);
        old(operations[id].stage) != ManualRepair ==>
          && View() == Next(old(View()), Event.Advance(if parks then Park else Again, "", false))
          && (delayMs.None? <==> parks)
      ensures delayMs.Some? ==> RESTORE_ALARM_DELAY_MS <= delayMs.value <= MAX_RESTORE_RETRY_DELAY_MS
      ensures delayMs.Some? ==> id in retryCount && retryCount[id] == (if id in old(retryCount) then old(retryCount[id]) else 0) + 1
    {
      if retryable {
        if operations[id].stage == ManualRepair { return None; }
        var attempt := (if id in retryCount then retryCount[id] else 0) + 1;
        if attempt < MAX_RESTORE_RETRY_ATTEMPTS {
          retryCount := retryCount[id := attempt];
          var delay := RESTORE_ALARM_DELAY_MS * Pow2(attempt - 1);
          Pow2IsPositive(attempt - 1);
          return Some(if delay < MAX_RESTORE_RETRY_DELAY_MS then delay else MAX_RESTORE_RETRY_DELAY_MS);
        }
      }
      ParkForManualRepair(id);
      return None;
    }

    /** Reconcile lifts a parked restore back to the stage it was in, if its blocker allows. */
    method Reconcile(id: RestoreId, retryable: bool) returns (resumed: bool)
      requires Valid()
      modifies this`operations
      ensures Valid() && (active == Some(id) ==> View() == Next(old(View()), Event.Resume(retryable)))
      ensures active != Some(id) ==> View() == old(View())
      ensures resumed <==> active == Some(id) && (old(operations[id].stage) != ManualRepair || retryable)
      ensures resumed ==> operations[id].stage != ManualRepair
    {
      NextKeeps(View(), Event.Resume(retryable));
      if active != Some(id) { return false; }
      assert OpOk(operations[id]);
      if operations[id].stage == ManualRepair {
        if !retryable { return false; }
        operations := operations[id := operations[id].(stage := operations[id].resume.value, resume := None)];
      }
      return true;
    }

    method StartRollback(id: RestoreId)
      requires id in operations
      modifies this`operations
      ensures operations == old(operations)[id := RolledBackFrom(old(operations)[id])]
    {
      var participants := operations[id].participants;
      operations := operations[id := operations[id].(
        participants := map p | p in participants ::
          if participants[p].status == RollbackReleased then participants[p]
          else participants[p].(status := if participants[p].undo then RollbackPending else RollbackNotNeeded))];
      operations := operations[id := operations[id].(stage := RollbackParticipants, resume := None)];
    }

    /** A rollback needs an undo and neither a released participant nor a discarded coordinator. */
    method RollBack(id: RestoreId, undoValid: bool) returns (started: bool)
      requires Valid() && active == Some(id)
      requires !(operations[id].stage == ManualRepair && IsRollback(operations[id].resume.value))
      modifies this`operations
      ensures Valid() && View() == Next(old(View()), Event.Rollback(undoValid, false))
      ensures started <==> undoValid && CanRollBack(old(operations[id]))
    {
      ghost var before := View();
      NextKeeps(before, Event.Rollback(undoValid, false));
      assert GateOk(before, id) && OpOk(operations[id]);
      started := MayRollBack(operations[id], undoValid);
      if started { StartRollback(id); }
      assert View() == Next(before, Event.Rollback(undoValid, false));
    }

    // ---- stages: each selects a row that is due, or moves the stage on ----

    /** One status to the next, for the stages that do only that. */
    method MoveNext(id: RestoreId, from: Status, to: Status, next: Stage) returns (pick: Name)
      requires active == Some(id) && id in operations && IsFenced(operations[id].stage) && IsFenced(next)
      modifies this`operations
      ensures View() == Store(old(View()), StepParticipant(old(operations[id]), pick, from, to, next))
      ensures SomeStatus(old(operations[id]), {from}) ==> Is(old(operations[id]), pick, {from})
    {
      if SomeStatus(operations[id], {from}) {
        pick :| pick in operations[id].participants && operations[id].participants[pick].status == from;
        SetStatus(id, pick, to);
      } else {
        pick := "";
        SetStage(id, next);
      }
    }

    method MaterializeNextLoss(id: RestoreId, page: LossPage) returns (pick: Name)
      requires active == Some(id) && id in operations && operations[id].stage == MaterializingLoss
      modifies this`operations
      ensures View() == Store(old(View()), StepLoss(old(operations[id]), pick, NeedsDiscard(page))) && Useful(old(operations[id]), pick)
    {
      if SomeStatus(operations[id], {PReady}) {
        pick :| pick in operations[id].participants && operations[id].participants[pick].status == PReady;
        SetStatus(id, pick, LossMaterialized);
      } else if SomeWork(operations[id], PendingLoss) {
        pick :| pick in operations[id].work && operations[id].work[pick] == PendingLoss;
        SetWork(id, pick, if page.requiresDiscard || page.entries > 0 then DiscardRequired else Retained);
      } else {
        pick := "";
        SetStage(id, Restoring);
      }
    }

    method RestoreNextParticipant(id: RestoreId) returns (pick: Name)
      requires active == Some(id) && id in operations && operations[id].stage == Restoring
      modifies this`operations
      ensures View() == Store(old(View()), StepRestore(old(operations[id]), pick)) && Useful(old(operations[id]), pick)
    {
      if !Unrestored(operations[id]) {
        pick := "";
        SetStage(id, Reconciling);
        return;
      }
      pick :| pick in operations[id].participants && operations[id].participants[pick].status !in {Restored, Verified, Released};
      match operations[id].participants[pick].status
      case LossMaterialized =>
        operations := operations[id := operations[id].(participants := operations[id].participants[pick := Participant(Staged, true)])];
      case Staged => SetStatus(id, pick, ActivationRequested);
      case ActivationRequested => SetStatus(id, pick, Restored);
      case _ =>
    }

    method ReconcileNextTransaction(id: RestoreId) returns (pick: Name)
      requires active == Some(id) && id in operations && operations[id].stage == Reconciling
      modifies this`operations
      ensures View() == Store(old(View()), StepReconcile(old(operations[id]), pick)) && Useful(old(operations[id]), pick)
    {
      if operations[id].pendingRecords != {} {
        pick :| pick in operations[id].pendingRecords;
        operations := operations[id := operations[id].(pendingRecords := operations[id].pendingRecords - {pick})];
      } else {
        pick := "";
        SetStage(id, Verifying);
      }
    }

    method DiscardNextCoordinator(id: RestoreId) returns (pick: Name)
      requires active == Some(id) && id in operations && operations[id].stage == Discarding
      modifies this`operations
      ensures View() == Store(old(View()), StepDiscard(old(operations[id]), pick)) && Useful(old(operations[id]), pick)
    {
      if SomeWork(operations[id], DiscardRequired) {
        pick :| pick in operations[id].work && operations[id].work[pick] == DiscardRequired;
        SetWork(id, pick, Discarded);
      } else {
        pick := "";
        SetStage(id, Releasing);
      }
    }

    method ReleaseNextParticipant(id: RestoreId) returns (pick: Name)
      requires active == Some(id) && id in operations && operations[id].stage == Releasing
      modifies this`operations, this`active
      ensures View() == Store(old(View()), StepRelease(old(operations[id]), pick)) && Useful(old(operations[id]), pick)
      ensures active.None? <==> operations[id].stage == Complete
    {
      if SomeStatus(operations[id], {Verified}) {
        pick :| pick in operations[id].participants && operations[id].participants[pick].status == Verified;
        SetStatus(id, pick, Released);
      } else {
        pick := "";
        var op := operations[id];
        var incomplete := (exists p | p in op.participants :: op.participants[p].status != Released)
          || op.pendingRecords != {} || (exists c | c in op.work :: op.work[c] !in {Retained, Discarded});
        if !incomplete { Finish(id, Complete); }
      }
    }

    method RunStage(id: RestoreId, page: LossPage) returns (pick: Name)
      requires active == Some(id) && id in operations && IsFenced(operations[id].stage)
      requires operations[id].stage != ManualRepair && !IsRollback(operations[id].stage)
      modifies this`operations, this`active
      ensures View() == Store(old(View()), Forward(old(operations[id]), pick, NeedsDiscard(page))) && Useful(old(operations[id]), pick)
    {
      match operations[id].stage
      case FencingCatalogs => pick := ""; SetStage(id, FencingParticipants);
      case FencingParticipants => pick := MoveNext(id, PPreviewed, PFenced, Revalidating);
      case Revalidating => pick := MoveNext(id, PFenced, PReady, MaterializingLoss);
      case MaterializingLoss => pick := MaterializeNextLoss(id, page);
      case Restoring => pick := RestoreNextParticipant(id);
      case Reconciling => pick := ReconcileNextTransaction(id);
      case Verifying => pick := MoveNext(id, Restored, Verified, Discarding);
      case Discarding => pick := DiscardNextCoordinator(id);
      case Releasing => pick := ReleaseNextParticipant(id);
    }

    /** One tick of a restore that is not rolling back: a useful step of it. */
    method Advance(id: RestoreId, page: LossPage) returns (pick: Name)
      requires Valid() && active == Some(id) && operations[id].stage != ManualRepair && !IsRollback(operations[id].stage)
      modifies this`operations, this`active, this`retryCount
      ensures Valid() && View() == Next(old(View()), Event.Advance(Positive, pick, NeedsDiscard(page)))
      ensures Useful(old(operations[id]), pick)
    {
      ghost var before := View();
      assert GateOk(before, id);
      pick := RunStage(id, page);
      NextKeeps(before, Event.Advance(Positive, pick, NeedsDiscard(page)));
      retryCount := retryCount[id := 0];
    }
  }
}
