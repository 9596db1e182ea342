/** The fleet restore as its authority object runs it: operations with their participants,
    the one gate, and the coordinator inventory. A participant's or coordinator's remote
    call is one step here; registrations happen between any two steps. */
module RestoreSpec {
  import opened Basics

  type RestoreId = string
  type Name = string

  datatype Stage =
    | Previewed | FencingCatalogs | FencingParticipants | Revalidating | MaterializingLoss | Restoring
    | Reconciling | Verifying | Discarding | Releasing | RollbackParticipants | RollbackReleasing
    | ManualRepair | Complete | RolledBack | Failed

  datatype Status =
    | PPreviewed | PFenced | PReady | LossMaterialized | Staged | ActivationRequested | Restored | Verified | Released
    | RollbackNotNeeded | RollbackPending | RollbackStaged | RollbackActivationRequested | RollbackVerified | RollbackReleased

  datatype Participant = Participant(status: Status, undo: bool)

  datatype WorkStatus = PendingLoss | DiscardRequired | Retained | Discarded

  /** `resume` is the stage a parked operation goes back to. */
  datatype Op = Op(
    stage: Stage, resume: Option<Stage>, generation: Option<nat>,
    participants: map<Name, Participant>, pendingRecords: set<Name>, work: map<Name, WorkStatus>)

  datatype Gate = Gate(active: Option<RestoreId>, generation: nat)

  /** `inventory` remembers, per operation, every coordinator that was registered when its
      gate closed or registered while it was closed. */
  datatype Sys = Sys(ops: map<RestoreId, Op>, gate: Gate, registry: set<Name>, inventory: map<RestoreId, set<Name>>)

  predicate IsRollback(stage: Stage) { stage in {RollbackParticipants, RollbackReleasing} }

  predicate IsFenced(stage: Stage) { stage !in {Previewed, Complete, RolledBack, Failed} }

  predicate BeforeRestore(stage: Stage) { stage in {FencingCatalogs, FencingParticipants, Revalidating} }

  predicate SomeStatus(op: Op, statuses: set<Status>) { exists p | p in op.participants :: op.participants[p].status in statuses }

  predicate SomeWork(op: Op, status: WorkStatus) { exists c | c in op.work :: op.work[c] == status }

  function Mark(op: Op, p: Name, status: Status): Op
    requires p in op.participants
  {
    op.(participants := op.participants[p := op.participants[p].(status := status)])
  }

  predicate Is(op: Op, p: Name, statuses: set<Status>) { p in op.participants && op.participants[p].status in statuses }

  // ---- one step with a positive answer ----

  /** The next participant in one of these statuses moves on, or the stage does. */
  function StepParticipant(op: Op, pick: Name, from: Status, to: Status, next: Stage): Op {
    if SomeStatus(op, {from}) then (if Is(op, pick, {from}) then Mark(op, pick, to) else op) else op.(stage := next)
  }

  function StepLoss(op: Op, pick: Name, discard: bool): Op {
    if SomeStatus(op, {PReady}) then (if Is(op, pick, {PReady}) then Mark(op, pick, LossMaterialized) else op)
    else if SomeWork(op, PendingLoss) then
      (if pick in op.work && op.work[pick] == PendingLoss then op.(work := op.work[pick := if discard then DiscardRequired else Retained]) else op)
    else op.(stage := Restoring)
  }

  /** What a coordinator reports as lost after the cutoff. Any evidence means that it must
      be discarded. */
  datatype LossPage = LossPage(entries: nat, requiresDiscard: bool)

  predicate NeedsDiscard(page: LossPage) { page.requiresDiscard || page.entries > 0 }

  predicate Unrestored(op: Op) { exists p | p in op.participants :: op.participants[p].status !in {Restored, Verified, Released} }

  /** A participant in a status this stage does not expect raises an error: nothing changes. */
  function StepRestore(op: Op, pick: Name): Op {
    if !Unrestored(op) then op.(stage := Reconciling)
    else if Is(op, pick, {LossMaterialized}) then op.(participants := op.participants[pick := Participant(Staged, true)])
    else if Is(op, pick, {Staged}) then Mark(op, pick, ActivationRequested)
    else if Is(op, pick, {ActivationRequested}) then Mark(op, pick, Restored)
    else op
  }

  function StepReconcile(op: Op, pick: Name): Op {
    if op.pendingRecords != {} then op.(pendingRecords := op.pendingRecords - {pick}) else op.(stage := Verifying)
  }

  function StepDiscard(op: Op, pick: Name): Op {
    if SomeWork(op, DiscardRequired) then
      (if pick in op.work && op.work[pick] == DiscardRequired then op.(work := op.work[pick := Discarded]) else op)
    else op.(stage := Releasing)
  }

  predicate AllDone(op: Op) {
    && (forall p | p in op.participants :: op.participants[p].status == Released)
    && op.pendingRecords == {}
    && (forall c | c in op.work :: op.work[c] in {Retained, Discarded})
  }

  /** The last step checks everything again before it completes. */
  function StepRelease(op: Op, pick: Name): Op {
    if SomeStatus(op, {Verified}) then (if Is(op, pick, {Verified}) then Mark(op, pick, Released) else op)
    else if AllDone(op) then op.(stage := Complete) else op
  }

  function StepRollback(op: Op, pick: Name): Op {
    if SomeStatus(op, {RollbackPending, RollbackStaged, RollbackActivationRequested}) then
      (if Is(op, pick, {RollbackPending}) && op.participants[pick].undo then Mark(op, pick, RollbackStaged)
       else if Is(op, pick, {RollbackStaged}) && op.participants[pick].undo then Mark(op, pick, RollbackActivationRequested)
       else if Is(op, pick, {RollbackActivationRequested}) && op.participants[pick].undo then Mark(op, pick, RollbackVerified)
       else op)
    else op.(stage := RollbackReleasing)
  }

  function StepRollbackRelease(op: Op, pick: Name): Op {
    if SomeStatus(op, {RollbackVerified, RollbackNotNeeded}) then
      (if Is(op, pick, {RollbackVerified, RollbackNotNeeded}) then Mark(op, pick, RollbackReleased) else op)
    else if forall p | p in op.participants :: op.participants[p].status == RollbackReleased then op.(stage := RolledBack) else op
  }

  function Forward(op: Op, pick: Name, discard: bool): Op {
    match op.stage
    case FencingCatalogs => op.(stage := FencingParticipants)
    case FencingParticipants => StepParticipant(op, pick, PPreviewed, PFenced, Revalidating)
    case Revalidating => StepParticipant(op, pick, PFenced, PReady, MaterializingLoss)
    case MaterializingLoss => StepLoss(op, pick, discard)
    case Restoring => StepRestore(op, pick)
    case Reconciling => StepReconcile(op, pick)
    case Verifying => StepParticipant(op, pick, Restored, Verified, Discarding)
    case Discarding => StepDiscard(op, pick)
    case Releasing => StepRelease(op, pick)
    case RollbackParticipants => StepRollback(op, pick)
    case RollbackReleasing => StepRollbackRelease(op, pick)
    case _ => op
  }

  // ---- requests ----

  /** How a step ends: answered well, to be tried again, parked for repair, or rejected
      before anything was restored, with every fence released. */
  datatype Answer = Positive | Again | Park | Stale

  datatype Event =
    | Preview(id: RestoreId, participants: set<Name>, records: set<Name>)
    | Execute(id: RestoreId)
    | Advance(answer: Answer, pick: Name, discard: bool)
    | Register(coordinator: Name, existing: bool)
    | Forget(coordinator: Name)
    | Resume(retryable: bool)
    | Rollback(undoValid: bool, retryable: bool)

  function Parked(op: Op): Op {
    if op.stage == ManualRepair || !IsFenced(op.stage) then op else op.(stage := ManualRepair, resume := Some(op.stage))
  }

  function Resumed(op: Op): Op {
    if op.stage == ManualRepair && op.resume.Some? then op.(stage := op.resume.value, resume := None) else op
  }

  /** A coordinator that was not in the inventory sends a restore that got past its
      fencing back to collecting losses. */
  function Inventoried(op: Op, c: Name): Op {
    if c in op.work then op
    else
      var op' := op.(work := op.work[c := PendingLoss]);
      if op.stage in {Restoring, Reconciling, Verifying, Discarding, Releasing} then op'.(stage := MaterializingLoss)
      else if op.stage == ManualRepair && op.resume.Some? && !IsRollback(op.resume.value) then op'.(resume := Some(MaterializingLoss))
      else op'
  }

  predicate RegistrationRefused(op: Op, existing: bool) { !existing || op.stage == Releasing || op.resume == Some(Releasing) }

  function Executed(op: Op, generation: nat, registry: set<Name>): Op {
    op.(stage := FencingCatalogs, generation := Some(generation),
        work := map c | c in op.work.Keys + registry :: if c in op.work then op.work[c] else PendingLoss)
  }

  predicate CanRollBack(op: Op) {
    && IsFenced(op.stage) && !IsRollback(op.stage)
    && !SomeStatus(op, {Released}) && !SomeWork(op, Discarded)
    && exists p | p in op.participants :: op.participants[p].undo
  }

  function RolledBackFrom(op: Op): Op {
    op.(stage := RollbackParticipants, resume := None,
        participants := map p | p in op.participants ::
          if op.participants[p].status == RollbackReleased then op.participants[p]
          else op.participants[p].(status := if op.participants[p].undo then RollbackPending else RollbackNotNeeded))
  }

  /** The operation that holds the gate. */
  function Gated(s: Sys): Option<Op> {
    if s.gate.active.Some? && s.gate.active.value in s.ops then Some(s.ops[s.gate.active.value]) else None
  }

  /** Store the gated operation; one that ended opens the gate in the same transaction. */
  function Store(s: Sys, op: Op): Sys
    requires s.gate.active.Some?
  {
    var s' := s.(ops := s.ops[s.gate.active.value := op]);
    if IsFenced(op.stage) then s' else s'.(gate := s.gate.(active := None))
  }

  function AdvanceStep(s: Sys, op: Op, answer: Answer, pick: Name, discard: bool): Sys
    requires s.gate.active.Some?
  {
    match answer
    case Positive => Store(s, Forward(op, pick, discard))
    case Again => s
    case Park => Store(s, Parked(op))
    case Stale => if BeforeRestore(op.stage) then Store(s, op.(stage := Failed)) else s
  }

  function RegisterStep(s: Sys, c: Name, existing: bool): Sys {
    if Gated(s).None? then (if s.gate.active.None? then s.(registry := s.registry + {c}) else s)
    else if RegistrationRefused(Gated(s).value, existing) then s
    else
      var id := s.gate.active.value;
      Store(s, Inventoried(Gated(s).value, c)).(
        registry := s.registry + {c},
        inventory := s.inventory[id := (if id in s.inventory then s.inventory[id] else {}) + {c}])
  }

  function Next(s: Sys, e: Event): Sys {
    match e
    case Preview(id, participants, records) =>
      if id in s.ops then s
      else s.(ops := s.ops[id := Op(Previewed, None, None, map p | p in participants :: Participant(PPreviewed, false), records, map[])])
    case Execute(id) =>
      if id !in s.ops || s.ops[id].stage != Previewed || s.gate.active.Some? then s
      else
        s.(ops := s.ops[id := Executed(s.ops[id], s.gate.generation + 1, s.registry)],
           gate := Gate(Some(id), s.gate.generation + 1), inventory := s.inventory[id := s.registry])
    case Advance(answer, pick, discard) => if Gated(s).None? then s else AdvanceStep(s, Gated(s).value, answer, pick, discard)
    case Register(c, existing) => RegisterStep(s, c, existing)
    case Forget(c) => s.(registry := s.registry - {c})
    case Resume(retryable) =>
      if Gated(s).None? || Gated(s).value.stage != ManualRepair || !retryable then s else Store(s, Resumed(Gated(s).value))
    case Rollback(undoValid, retryable) =>
      if Gated(s).None? then s
      else
        var op := Gated(s).value;
        if op.stage == ManualRepair && op.resume.Some? && IsRollback(op.resume.value) then (if retryable then Store(s, Resumed(op)) else s)
        else if undoValid && CanRollBack(op) then Store(s, RolledBackFrom(op)) else s
  }

  const Start := Sys(map[], Gate(None, 0), {}, map[])

  function From(s: Sys, run: seq<Event>): Sys {
    if run == [] then s else Next(From(s, run[..|run| - 1]), run[|run| - 1])
  }
}
