/** Safety of the fleet restore over every run, and when it makes progress. */
module Restore {
  import opened Basics
  import opened RestoreSpec

  // ---- what every event keeps ----

  /** What an operation's own rows satisfy. */
  predicate OpOk(op: Op) {
    && (op.stage == ManualRepair ==> op.resume.Some? && IsFenced(op.resume.value) && op.resume.value != ManualRepair)
    && (op.stage != ManualRepair ==> op.resume.None?)
    && (op.stage == Complete ==> AllDone(op))
    && (op.stage == RolledBack ==> forall p | p in op.participants :: op.participants[p].status == RollbackReleased)
    && (IsRollback(op.stage) || op.stage == RolledBack || (op.resume.Some? && IsRollback(op.resume.value)) ==> !SomeWork(op, Discarded))
  }

  predicate GateOk(s: Sys, id: RestoreId)
    requires id in s.ops
  {
    && (IsFenced(s.ops[id].stage) <==> s.gate.active == Some(id))
    && (s.gate.active == Some(id) ==> s.ops[id].generation == Some(s.gate.generation))
    && (s.ops[id].generation.Some? ==> s.ops[id].generation.value <= s.gate.generation)
    && (s.ops[id].stage == Previewed <==> s.ops[id].generation.None?)
    && (id in s.inventory ==> s.inventory[id] <= s.ops[id].work.Keys)
  }

  ghost predicate Inv(s: Sys) {
    && (s.gate.active.Some? ==> s.gate.active.value in s.ops)
    && (forall id | id in s.ops :: OpOk(s.ops[id]) && GateOk(s, id))
    && (forall id | id in s.inventory :: id in s.ops)
  }

  lemma ForwardIsOk(op: Op, pick: Name, discard: bool)
    requires OpOk(op) && IsFenced(op.stage)
    ensures OpOk(Forward(op, pick, discard)) && Forward(op, pick, discard).stage != Previewed
    ensures Forward(op, pick, discard).work.Keys == op.work.Keys && Forward(op, pick, discard).generation == op.generation
  {
  }

  lemma StoreKeeps(s: Sys, op: Op)
    requires Inv(s) && s.gate.active.Some? && OpOk(op) && op.stage != Previewed
    requires op.generation == s.ops[s.gate.active.value].generation && s.ops[s.gate.active.value].work.Keys <= op.work.Keys
    ensures Inv(Store(s, op))
  {
    var s' := Store(s, op);
    forall id | id in s'.ops ensures OpOk(s'.ops[id]) && GateOk(s', id) {
      assert id in s.ops && GateOk(s, id) && GateOk(s, s.gate.active.value);
    }
  }

  lemma NextKeeps(s: Sys, e: Event)
    requires Inv(s)
    ensures Inv(Next(s, e))
  {
    if s.gate.active.Some? { assert GateOk(s, s.gate.active.value) && OpOk(s.ops[s.gate.active.value]); }
    match e
    case Advance(answer, pick, discard) => AdvanceKeeps(s, answer, pick, discard);
    case Register(c, existing) => RegisterKeeps(s, c, existing);
    case Execute(id) => ExecuteKeeps(s, id);
    case Resume(retryable) => if s.gate.active.Some? && Next(s, e) != s { StoreKeeps(s, Resumed(Gated(s).value)); }
    case Rollback(undoValid, retryable) => RollbackKeeps(s, undoValid, retryable);
    case Preview(id, participants, records) => PreviewKeeps(s, id, participants, records);
    case Forget(c) => ForgetKeeps(s, c);
  }

  lemma ForgetKeeps(s: Sys, c: Name)
    requires Inv(s)
    ensures Inv(Next(s, Forget(c)))
  {
    var s' := Next(s, Forget(c));
    forall id | id in s'.ops ensures GateOk(s', id) { assert GateOk(s, id); }
  }

  lemma PreviewKeeps(s: Sys, id: RestoreId, participants: set<Name>, records: set<Name>)
    requires Inv(s)
    ensures Inv(Next(s, Preview(id, participants, records)))
  {
    var s' := Next(s, Preview(id, participants, records));
    forall other | other in s'.ops ensures OpOk(s'.ops[other]) && GateOk(s', other) {
      if other in s.ops { assert GateOk(s, other); }
    }
  }

  lemma ExecuteKeeps(s: Sys, id: RestoreId)
    requires Inv(s)
    ensures Inv(Next(s, Execute(id)))
  {
    var s' := Next(s, Execute(id));
    forall other | other in s'.ops ensures OpOk(s'.ops[other]) && GateOk(s', other) { assert GateOk(s, other) && OpOk(s.ops[other]); }
  }

  lemma AdvanceKeeps(s: Sys, answer: Answer, pick: Name, discard: bool)
    requires Inv(s)
    ensures Inv(Next(s, Advance(answer, pick, discard)))
  {
    if s.gate.active.Some? {
      var op := Gated(s).value;
      assert GateOk(s, s.gate.active.value) && OpOk(op);
      match answer
      case Positive =>
        ForwardIsOk(op, pick, discard);
        StoreKeeps(s, Forward(op, pick, discard));
      case Park => StoreKeeps(s, Parked(op));
      case Stale => if BeforeRestore(op.stage) { StoreKeeps(s, op.(stage := Failed)); }
      case Again =>
    }
  }

  lemma RegisterKeeps(s: Sys, c: Name, existing: bool)
    requires Inv(s)
    ensures Inv(Next(s, Register(c, existing)))
  {
    var s' := Next(s, Register(c, existing));
    if s.gate.active.Some? && s' != s {
      var id := s.gate.active.value;
      assert GateOk(s, id) && OpOk(s.ops[id]);
      InventoriedIsOk(s.ops[id], c);
      var stored := Store(s, Inventoried(s.ops[id], c));
      StoreKeeps(s, Inventoried(s.ops[id], c));
      forall other | other in s'.ops ensures OpOk(s'.ops[other]) && GateOk(s', other) { assert GateOk(stored, other); }
    } else {
      forall other | other in s'.ops ensures OpOk(s'.ops[other]) && GateOk(s', other) { assert GateOk(s, other); }
    }
  }

  lemma InventoriedIsOk(op: Op, c: Name)
    requires OpOk(op) && IsFenced(op.stage)
    ensures var op' := Inventoried(op, c);
      OpOk(op') && IsFenced(op'.stage) && op'.work.Keys == op.work.Keys + {c} && op'.generation == op.generation
  {
    var op' := Inventoried(op, c);
    assert SomeWork(op', Discarded) ==> SomeWork(op, Discarded);
  }

  lemma RollbackKeeps(s: Sys, undoValid: bool, retryable: bool)
    requires Inv(s)
    ensures Inv(Next(s, Rollback(undoValid, retryable)))
  {
    if s.gate.active.Some? {
      var op := Gated(s).value;
      assert GateOk(s, s.gate.active.value) && OpOk(op);
      StoreKeeps(s, Resumed(op));
      if CanRollBack(op) { StoreKeeps(s, RolledBackFrom(op)); }
    }
  }

  lemma {:induction false} RunKeeps(s: Sys, run: seq<Event>)
    requires Inv(s)
    ensures Inv(From(s, run))
  {
    if run != [] {
      RunKeeps(s, run[..|run| - 1]);
      NextKeeps(From(s, run[..|run| - 1]), run[|run| - 1]);
    }
  }

  // ---- safety, over every run ----

  /** At most one operation is in a fenced stage; the gate is closed exactly when one is,
      names it, and carries its generation. */
  lemma {:induction false} GateNamesTheOnlyRestore(run: seq<Event>, id: RestoreId, other: RestoreId)
    ensures var s := From(Start, run);
      && (id in s.ops ==> (IsFenced(s.ops[id].stage) <==> s.gate.active == Some(id)))
      && (s.gate.active == Some(id) ==> id in s.ops && s.ops[id].generation == Some(s.gate.generation))
      && (id in s.ops && other in s.ops && IsFenced(s.ops[id].stage) && IsFenced(s.ops[other].stage) ==> id == other)
  {
    RunKeeps(Start, run);
    var s := From(Start, run);
    if id in s.ops { assert GateOk(s, id); }
    if other in s.ops { assert GateOk(s, other); }
  }

  /** Closing the gate gives the operation a generation larger than every earlier one. */
  lemma {:induction false} GenerationsIncrease(run: seq<Event>, id: RestoreId, other: RestoreId)
    ensures var s := From(Start, run); var s' := Next(s, Execute(id));
      s' != s && other in s.ops && s.ops[other].generation.Some? ==>
        s'.ops[id].generation.Some? && s.ops[other].generation.value < s'.ops[id].generation.value
  {
    RunKeeps(Start, run);
    var s := From(Start, run);
    if other in s.ops { assert GateOk(s, other); }
  }

  /** Complete means complete: every participant released, every manifest record
      reconciled, every coordinator that was registered when the gate closed or while it
      was closed retained or discarded - whatever registrations came in between. */
  lemma {:induction false} CompleteIsComplete(run: seq<Event>, id: RestoreId, c: Name)
    ensures var s := From(Start, run);
      id in s.ops && s.ops[id].stage == Complete ==>
        && (forall p | p in s.ops[id].participants :: s.ops[id].participants[p].status == Released)
        && s.ops[id].pendingRecords == {}
        && (id in s.inventory && c in s.inventory[id] ==> c in s.ops[id].work && s.ops[id].work[c] in {Retained, Discarded})
  {
    RunKeeps(Start, run);
    var s := From(Start, run);
    if id in s.ops { assert GateOk(s, id) && OpOk(s.ops[id]); }
  }

  /** Rolled back means nothing was discarded and every participant was released again. */
  lemma {:induction false} RolledBackIsClean(run: seq<Event>, id: RestoreId)
    ensures var s := From(Start, run);
      id in s.ops && s.ops[id].stage == RolledBack ==>
        (forall p | p in s.ops[id].participants :: s.ops[id].participants[p].status == RollbackReleased) && !SomeWork(s.ops[id], Discarded)
  {
    RunKeeps(Start, run);
    var s := From(Start, run);
    if id in s.ops { assert OpOk(s.ops[id]); }
  }

  // ---- participants only move forward ----

  function Rank(s: Status): nat {
    match s
    case PPreviewed => 0
    case PFenced => 1
    case PReady => 2
    case LossMaterialized => 3
    case Staged => 4
    case ActivationRequested => 5
    case Restored => 6
    case Verified => 7
    case Released => 8
    case RollbackNotNeeded => 9
    case RollbackPending => 9
    case RollbackStaged => 10
    case RollbackActivationRequested => 11
    case RollbackVerified => 12
    case RollbackReleased => 13
  }

  /** No event moves a participant back along the ladder, drops it, or forgets its undo. */
  predicate Climbs(op: Op, op': Op) {
    op'.participants.Keys == op.participants.Keys
    && forall p | p in op.participants ::
         Rank(op.participants[p].status) <= Rank(op'.participants[p].status) && (op.participants[p].undo ==> op'.participants[p].undo)
  }

  /** Outside a rollback nothing has a rollback status. */
  predicate LadderOk(op: Op) {
    !IsRollback(op.stage) && op.stage != RolledBack && (op.resume.Some? ==> !IsRollback(op.resume.value)) ==>
      forall p | p in op.participants :: Rank(op.participants[p].status) <= 8
  }

  lemma MarkClimbs(op: Op, p: Name, status: Status)
    requires p in op.participants && Rank(op.participants[p].status) <= Rank(status)
    ensures Climbs(op, Mark(op, p, status))
  {
  }

  lemma StayClimbs(op: Op, op': Op)
    requires op'.participants == op.participants
    ensures Climbs(op, op')
  {
  }

  lemma ParticipantStepClimbs(op: Op, pick: Name, from: Status, to: Status, next: Stage)
    requires Rank(from) <= Rank(to)
    ensures Climbs(op, StepParticipant(op, pick, from, to, next))
  {
    if Is(op, pick, {from}) { MarkClimbs(op, pick, to); }
    StayClimbs(op, op.(stage := next));
    StayClimbs(op, op);
  }

  lemma RestoreStepClimbs(op: Op, pick: Name)
    ensures Climbs(op, StepRestore(op, pick))
  {
    StayClimbs(op, op);
    StayClimbs(op, op.(stage := Reconciling));
  }

  lemma ReleaseStepClimbs(op: Op, pick: Name)
    ensures Climbs(op, StepRelease(op, pick)) && Climbs(op, StepRollbackRelease(op, pick))
  {
    if Is(op, pick, {Verified}) { MarkClimbs(op, pick, Released); }
    if Is(op, pick, {RollbackVerified, RollbackNotNeeded}) { MarkClimbs(op, pick, RollbackReleased); }
    StayClimbs(op, op);
    StayClimbs(op, op.(stage := Complete));
    StayClimbs(op, op.(stage := RolledBack));
  }

  lemma RollbackStepClimbs(op: Op, pick: Name)
    ensures Climbs(op, StepRollback(op, pick))
  {
    if Is(op, pick, {RollbackPending}) { MarkClimbs(op, pick, RollbackStaged); }
    if Is(op, pick, {RollbackStaged}) { MarkClimbs(op, pick, RollbackActivationRequested); }
    if Is(op, pick, {RollbackActivationRequested}) { MarkClimbs(op, pick, RollbackVerified); }
    StayClimbs(op, op);
    StayClimbs(op, op.(stage := RollbackReleasing));
  }

  lemma LossStepClimbs(op: Op, pick: Name, discard: bool)
    ensures Climbs(op, StepLoss(op, pick, discard))
  {
    if Is(op, pick, {PReady}) { MarkClimbs(op, pick, LossMaterialized); }
    else { StayClimbs(op, StepLoss(op, pick, discard)); }
  }

  lemma ForwardClimbs(op: Op, pick: Name, discard: bool)
    ensures Climbs(op, Forward(op, pick, discard))
  {
    match op.stage
    case FencingParticipants => ParticipantStepClimbs(op, pick, PPreviewed, PFenced, Revalidating);
    case Revalidating => ParticipantStepClimbs(op, pick, PFenced, PReady, MaterializingLoss);
    case MaterializingLoss => LossStepClimbs(op, pick, discard);
    case Restoring => RestoreStepClimbs(op, pick);
    case Verifying => ParticipantStepClimbs(op, pick, Restored, Verified, Discarding);
    case Releasing => ReleaseStepClimbs(op, pick);
    case RollbackParticipants => RollbackStepClimbs(op, pick);
    case RollbackReleasing => ReleaseStepClimbs(op, pick);
    case _ => StayClimbs(op, Forward(op, pick, discard));
  }

  lemma ForwardStaysOnLadder(op: Op, pick: Name, discard: bool)
    requires LadderOk(op) && OpOk(op) && op.stage != ManualRepair
    ensures LadderOk(Forward(op, pick, discard))
  {
  }

  /** Starting a rollback puts every participant above the restore's ladder. */
  lemma RollbackClimbs(op: Op)
    requires LadderOk(op) && CanRollBack(op) && (op.resume.Some? ==> !IsRollback(op.resume.value))
    ensures Climbs(op, RolledBackFrom(op)) && LadderOk(RolledBackFrom(op))
  {
  }

  /** The gated operation after an event is at or above where it was. */
  ghost predicate GatedUp(s: Sys, s': Sys) {
    s.gate.active.Some? && s.gate.active.value in s.ops && s.gate.active.value in s'.ops
    && Climbs(s.ops[s.gate.active.value], s'.ops[s.gate.active.value]) && LadderOk(s'.ops[s.gate.active.value])
  }

  lemma StoreIsUp(s: Sys, op: Op)
    requires Gated(s).Some? && Climbs(Gated(s).value, op) && LadderOk(op)
    ensures GatedUp(s, Store(s, op))
  {
  }

  lemma AdvanceClimbs(s: Sys, answer: Answer, pick: Name, discard: bool)
    requires Gated(s).Some? && OpOk(Gated(s).value) && LadderOk(Gated(s).value)
    ensures GatedUp(s, AdvanceStep(s, Gated(s).value, answer, pick, discard))
  {
    var op := Gated(s).value;
    match answer
    case Positive =>
      ForwardClimbs(op, pick, discard);
      if op.stage != ManualRepair { ForwardStaysOnLadder(op, pick, discard); }
      StoreIsUp(s, Forward(op, pick, discard));
    case Park => StayClimbs(op, Parked(op)); StoreIsUp(s, Parked(op));
    case Stale => StayClimbs(op, op.(stage := Failed)); if BeforeRestore(op.stage) { StoreIsUp(s, op.(stage := Failed)); } else { StayClimbs(op, op); }
    case Again => StayClimbs(op, op);
  }

  lemma RegisterClimbs(s: Sys, c: Name, existing: bool)
    requires Gated(s).Some? && OpOk(Gated(s).value) && LadderOk(Gated(s).value)
    ensures GatedUp(s, RegisterStep(s, c, existing))
  {
    var op := Gated(s).value;
    StayClimbs(op, op);
    StayClimbs(op, Inventoried(op, c));
    StoreIsUp(s, Inventoried(op, c));
  }

  lemma RepairClimbs(s: Sys, e: Event)
    requires Gated(s).Some? && OpOk(Gated(s).value) && LadderOk(Gated(s).value) && (e.Resume? || e.Rollback?)
    ensures GatedUp(s, Next(s, e))
  {
    var op := Gated(s).value;
    StayClimbs(op, op);
    StayClimbs(op, Resumed(op));
    StoreIsUp(s, Resumed(op));
    if CanRollBack(op) && !(op.resume.Some? && IsRollback(op.resume.value)) {
      RollbackClimbs(op);
      StoreIsUp(s, RolledBackFrom(op));
    }
  }

  lemma GatedClimbs(s: Sys, e: Event)
    requires Gated(s).Some? && OpOk(Gated(s).value) && LadderOk(Gated(s).value) && !e.Preview? && !e.Execute? && !e.Forget?
    ensures GatedUp(s, Next(s, e))
  {
    match e
    case Advance(answer, pick, discard) => AdvanceClimbs(s, answer, pick, discard);
    case Register(c, existing) => RegisterClimbs(s, c, existing);
    case _ => RepairClimbs(s, e);
  }

  lemma UngatedStays(s: Sys, e: Event, id: RestoreId)
    requires Inv(s) && id in s.ops && (s.gate.active != Some(id) || e.Preview? || e.Execute? || e.Forget?)
    ensures id in Next(s, e).ops && Next(s, e).ops[id].participants == s.ops[id].participants
    ensures LadderOk(s.ops[id]) ==> LadderOk(Next(s, e).ops[id])
  {
    assert GateOk(s, id) && OpOk(s.ops[id]);
    if e.Execute? { ExecuteKeepsLadder(s, e.id, id); }
    else if e.Preview? || e.Forget? { NoOpChanges(s, e, id); }
    else { OthersAreUntouched(s, e, id); }
  }

  lemma NoOpChanges(s: Sys, e: Event, id: RestoreId)
    requires id in s.ops && (e.Preview? || e.Forget?)
    ensures id in Next(s, e).ops && Next(s, e).ops[id] == s.ops[id]
  {
  }

  lemma ExecuteKeepsLadder(s: Sys, started: RestoreId, id: RestoreId)
    requires id in s.ops
    ensures var s' := Next(s, Execute(started));
      && id in s'.ops && s'.ops[id].participants == s.ops[id].participants
      && (LadderOk(s.ops[id]) && OpOk(s.ops[id]) ==> LadderOk(s'.ops[id]))
  {
  }

  lemma OthersAreUntouched(s: Sys, e: Event, id: RestoreId)
    requires id in s.ops && s.gate.active != Some(id) && !e.Preview? && !e.Execute? && !e.Forget?
    ensures id in Next(s, e).ops && Next(s, e).ops[id] == s.ops[id]
  {
  }

  /** No event moves any participant of any operation back. */
  lemma LadderOnlyClimbs(s: Sys, e: Event, id: RestoreId)
    requires Inv(s) && id in s.ops && LadderOk(s.ops[id])
    ensures id in Next(s, e).ops && Climbs(s.ops[id], Next(s, e).ops[id]) && LadderOk(Next(s, e).ops[id])
  {
    assert OpOk(s.ops[id]);
    if s.gate.active == Some(id) && !e.Preview? && !e.Execute? && !e.Forget? {
      GatedClimbs(s, e);
    } else {
      UngatedStays(s, e, id);
      StayClimbs(s.ops[id], Next(s, e).ops[id]);
    }
  }

  /** So over every run no participant ever goes back, and none has a rollback status
      unless a rollback was started. */
  lemma {:induction false} LadderHolds(run: seq<Event>, id: RestoreId)
    ensures id in From(Start, run).ops ==> LadderOk(From(Start, run).ops[id])
  {
    if run != [] {
      var s := From(Start, run[..|run| - 1]);
      LadderHolds(run[..|run| - 1], id);
      RunKeeps(Start, run[..|run| - 1]);
      LadderNext(s, run[|run| - 1], id);
    }
  }

  lemma LadderNext(s: Sys, e: Event, id: RestoreId)
    requires Inv(s) && (id in s.ops ==> LadderOk(s.ops[id]))
    ensures id in Next(s, e).ops ==> LadderOk(Next(s, e).ops[id])
  {
    if id in s.ops { LadderOnlyClimbs(s, e, id); } else { OnlyPreviewsAppear(s, e, id); }
  }

  lemma OnlyPreviewsAppear(s: Sys, e: Event, id: RestoreId)
    requires Inv(s) && id !in s.ops
    ensures id in Next(s, e).ops ==> e.Preview? && Next(s, e).ops[id].participants == map p | p in e.participants :: Participant(PPreviewed, false)
  {
  }
}
