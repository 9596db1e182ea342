/** When a restore makes progress: with positive answers it completes, registrations only
    add work to it - except one that arrives while it is parked before restoring. */
module RestoreProgress {
  import opened Basics
  import opened RestoreSpec
  import opened Restore

  /** The stage the operation is in, or will resume in. */
  function Effective(op: Op): Stage { if op.stage == ManualRepair && op.resume.Some? then op.resume.value else op.stage }

  predicate Between(op: Op, low: nat, high: nat) { forall p | p in op.participants :: low <= Rank(op.participants[p].status) <= high }

  predicate LossesKnown(op: Op) { !SomeWork(op, PendingLoss) }

  /** The rows are what this stage expects. */
  predicate Expects(op: Op, stage: Stage) {
    match stage
    case FencingCatalogs => Between(op, 0, 0)
    case FencingParticipants => Between(op, 0, 1)
    case Revalidating => Between(op, 1, 2)
    case MaterializingLoss => Between(op, 2, 7)
    case Restoring => Between(op, 3, 7) && LossesKnown(op)
    case Reconciling => Between(op, 6, 7) && LossesKnown(op)
    case Verifying => Between(op, 6, 7) && LossesKnown(op) && op.pendingRecords == {}
    case Discarding => Between(op, 7, 7) && LossesKnown(op) && op.pendingRecords == {}
    case Releasing => Between(op, 7, 8) && LossesKnown(op) && op.pendingRecords == {} && !SomeWork(op, DiscardRequired)
    case Complete => true
    case _ => false
  }

  predicate InOrder(op: Op) { Expects(op, Effective(op)) }

  // ---- the measure ----

  function Below(op: Op, k: nat): set<Name> { set p | p in op.participants && Rank(op.participants[p].status) < k }

  function ParticipantWork(op: Op): nat {
    |Below(op, 1)| + |Below(op, 2)| + |Below(op, 3)| + |Below(op, 4)| + |Below(op, 5)| + |Below(op, 6)| + |Below(op, 7)| + |Below(op, 8)|
  }

  function Unknown(op: Op): set<Name> { set c | c in op.work && op.work[c] == PendingLoss }

  function Unsettled(op: Op): set<Name> { set c | c in op.work && op.work[c] in {PendingLoss, DiscardRequired} }

  /** Rungs still to climb, records still to reconcile, coordinators still to settle. */
  function Work(op: Op): nat { ParticipantWork(op) + |op.pendingRecords| + |Unknown(op)| + |Unsettled(op)| }

  function Distance(stage: Stage): nat {
    match stage
    case FencingCatalogs => 9
    case FencingParticipants => 8
    case Revalidating => 7
    case MaterializingLoss => 6
    case Restoring => 5
    case Reconciling => 4
    case Verifying => 3
    case Discarding => 2
    case Releasing => 1
    case _ => 0
  }

  /** Work first, then stages: a step does some work, or finds none and moves on. */
  function Measure(op: Op): nat { if op.stage == Complete then 0 else 10 * Work(op) + Distance(op.stage) }

  lemma SubsetIsNoLarger<T>(a: set<T>, b: set<T>)
    requires a <= b
    ensures |a| <= |b| && (a != b ==> |a| < |b|)
  {
    assert b == a + (b - a);
  }

  /** One participant climbs. */
  lemma {:induction false} ClimbingShrinks(op: Op, op': Op, p: Name)
    requires p in op.participants && p in op'.participants && op'.participants == op.participants[p := op'.participants[p]]
    requires Rank(op.participants[p].status) < Rank(op'.participants[p].status) <= 8
    ensures ParticipantWork(op') < ParticipantWork(op)
  {
    var r := Rank(op.participants[p].status) + 1;
    BelowShrinks(op, op', p, 1);
    BelowShrinks(op, op', p, 2);
    BelowShrinks(op, op', p, 3);
    BelowShrinks(op, op', p, 4);
    BelowShrinks(op, op', p, 5);
    BelowShrinks(op, op', p, 6);
    BelowShrinks(op, op', p, 7);
    BelowShrinks(op, op', p, 8);
  }

  lemma BelowShrinks(op: Op, op': Op, p: Name, k: nat)
    requires p in op.participants && p in op'.participants && op'.participants == op.participants[p := op'.participants[p]]
    requires Rank(op.participants[p].status) < Rank(op'.participants[p].status)
    ensures |Below(op', k)| <= |Below(op, k)|
    ensures k == Rank(op.participants[p].status) + 1 ==> |Below(op', k)| < |Below(op, k)|
  {
    assert Below(op', k) <= Below(op, k);
    SubsetIsNoLarger(Below(op', k), Below(op, k));
    if k == Rank(op.participants[p].status) + 1 { assert p in Below(op, k) && p !in Below(op', k); }
  }

  // ---- useful steps ----

  /** The step works on one of the rows its stage selects, if it selects any. */
  predicate Useful(op: Op, pick: Name) {
    match op.stage
    case FencingParticipants => SomeStatus(op, {PPreviewed}) ==> Is(op, pick, {PPreviewed})
    case Revalidating => SomeStatus(op, {PFenced}) ==> Is(op, pick, {PFenced})
    case MaterializingLoss =>
      if SomeStatus(op, {PReady}) then Is(op, pick, {PReady})
      else SomeWork(op, PendingLoss) ==> pick in op.work && op.work[pick] == PendingLoss
    case Restoring => Unrestored(op) ==> pick in op.participants && op.participants[pick].status !in {Restored, Verified, Released}
    case Reconciling => op.pendingRecords != {} ==> pick in op.pendingRecords
    case Verifying => SomeStatus(op, {Restored}) ==> Is(op, pick, {Restored})
    case Discarding => SomeWork(op, DiscardRequired) ==> pick in op.work && op.work[pick] == DiscardRequired
    case Releasing => SomeStatus(op, {Verified}) ==> Is(op, pick, {Verified})
    case _ => true
  }

  lemma MarkShrinks(op: Op, p: Name, status: Status)
    requires p in op.participants && Rank(op.participants[p].status) < Rank(status) <= 8
    ensures Work(Mark(op, p, status)) < Work(op)
  {
    ClimbingShrinks(op, Mark(op, p, status), p);
  }

  lemma RankIs(s: Status)
    ensures Rank(s) == 0 <==> s == PPreviewed
    ensures Rank(s) == 1 <==> s == PFenced
    ensures Rank(s) == 2 <==> s == PReady
    ensures Rank(s) == 3 <==> s == LossMaterialized
    ensures Rank(s) == 4 <==> s == Staged
    ensures Rank(s) == 5 <==> s == ActivationRequested
    ensures Rank(s) == 6 <==> s == Restored
    ensures Rank(s) == 7 <==> s == Verified
    ensures Rank(s) == 8 <==> s == Released
  {
  }

  lemma MoveOn(op: Op, next: Stage)
    requires op.stage != Complete && Distance(next) < Distance(op.stage)
    ensures Measure(op.(stage := next)) < Measure(op)
  {
    assert Work(op.(stage := next)) == Work(op);
  }

  /** One rung on a stage that climbs by single rungs. */
  lemma RungProgress(op: Op, pick: Name, from: Status, to: Status, low: nat, high: nat)
    requires Between(op, low, high) && Is(op, pick, {from}) && Rank(from) < Rank(to) <= high <= 8
    ensures Between(Mark(op, pick, to), low, high) && (op.stage == Complete || Measure(Mark(op, pick, to)) < Measure(op))
  {
    MarkShrinks(op, pick, to);
  }

  /** No participant left on the lowest rung. */
  lemma NoneLeft(op: Op, from: Status, low: nat, high: nat)
    requires Between(op, low, high) && Rank(from) == low && low <= 8 && !SomeStatus(op, {from})
    ensures Between(op, low + 1, high)
  {
    forall p | p in op.participants ensures Rank(op.participants[p].status) != low { RankIs(op.participants[p].status); RankIs(from); }
  }

  lemma FencingProgress(op: Op, pick: Name, discard: bool)
    requires op.stage in {FencingCatalogs, FencingParticipants} && InOrder(op) && Useful(op, pick)
    ensures InOrder(Forward(op, pick, discard)) && Measure(Forward(op, pick, discard)) < Measure(op)
  {
    if op.stage == FencingParticipants && SomeStatus(op, {PPreviewed}) {
      RungProgress(op, pick, PPreviewed, PFenced, 0, 1);
    } else {
      if op.stage == FencingParticipants { NoneLeft(op, PPreviewed, 0, 1); }
      MoveOn(op, Forward(op, pick, discard).stage);
    }
  }

  lemma RevalidatingProgress(op: Op, pick: Name, discard: bool)
    requires op.stage == Revalidating && InOrder(op) && Useful(op, pick)
    ensures InOrder(Forward(op, pick, discard)) && Measure(Forward(op, pick, discard)) < Measure(op)
  {
    if SomeStatus(op, {PFenced}) {
      RungProgress(op, pick, PFenced, PReady, 1, 2);
    } else {
      NoneLeft(op, PFenced, 1, 2);
      MoveOn(op, MaterializingLoss);
    }
  }

  lemma VerifyingProgress(op: Op, pick: Name, discard: bool)
    requires op.stage == Verifying && InOrder(op) && Useful(op, pick)
    ensures InOrder(Forward(op, pick, discard)) && Measure(Forward(op, pick, discard)) < Measure(op)
  {
    if SomeStatus(op, {Restored}) {
      RungProgress(op, pick, Restored, Verified, 6, 7);
    } else {
      NoneLeft(op, Restored, 6, 7);
      MoveOn(op, Discarding);
    }
  }

  lemma SettlesOne(op: Op, pick: Name, status: WorkStatus)
    requires pick in op.work && op.work[pick] == PendingLoss && status in {DiscardRequired, Retained}
    ensures Work(op.(work := op.work[pick := status])) < Work(op)
  {
    var op' := op.(work := op.work[pick := status]);
    assert ParticipantWork(op') == ParticipantWork(op);
    assert Unknown(op') == Unknown(op) - {pick} && pick in Unknown(op);
    assert Unsettled(op') <= Unsettled(op);
    SubsetIsNoLarger(Unsettled(op'), Unsettled(op));
  }

  lemma LossStepProgress(op: Op, pick: Name, discard: bool)
    requires op.stage == MaterializingLoss && InOrder(op) && Useful(op, pick)
    ensures InOrder(Forward(op, pick, discard)) && Measure(Forward(op, pick, discard)) < Measure(op)
  {
    if SomeStatus(op, {PReady}) { RungProgress(op, pick, PReady, LossMaterialized, 2, 7); }
    else if SomeWork(op, PendingLoss) { SettlesOne(op, pick, if discard then DiscardRequired else Retained); }
    else {
      NoneLeft(op, PReady, 2, 7);
      MoveOn(op, Restoring);
    }
  }

  lemma RestoresOne(op: Op, pick: Name)
    requires Between(op, 3, 7) && LossesKnown(op) && Unrestored(op)
    requires pick in op.participants && op.participants[pick].status !in {Restored, Verified, Released}
    ensures var op' := StepRestore(op, pick); op'.stage == op.stage && Between(op', 3, 7) && LossesKnown(op') && Work(op') < Work(op)
  {
    var op' := StepRestore(op, pick);
    RankIs(op.participants[pick].status);
    ClimbingShrinks(op, op', pick);
    assert Unknown(op') == Unknown(op) && Unsettled(op') == Unsettled(op);
  }

  lemma RestoreStepProgress(op: Op, pick: Name, discard: bool)
    requires op.stage == Restoring && InOrder(op) && Useful(op, pick)
    ensures InOrder(Forward(op, pick, discard)) && Measure(Forward(op, pick, discard)) < Measure(op)
  {
    if Unrestored(op) { RestoresOne(op, pick); } else { MoveOn(op, Reconciling); }
  }

  lemma ReconcilesOne(op: Op, pick: Name)
    requires pick in op.pendingRecords
    ensures Work(op.(pendingRecords := op.pendingRecords - {pick})) < Work(op)
  {
    var op' := op.(pendingRecords := op.pendingRecords - {pick});
    assert Unknown(op') == Unknown(op) && Unsettled(op') == Unsettled(op) && ParticipantWork(op') == ParticipantWork(op);
  }

  lemma ReconcileStepProgress(op: Op, pick: Name, discard: bool)
    requires op.stage == Reconciling && InOrder(op) && Useful(op, pick)
    ensures InOrder(Forward(op, pick, discard)) && Measure(Forward(op, pick, discard)) < Measure(op)
  {
    if op.pendingRecords != {} { ReconcilesOne(op, pick); } else { MoveOn(op, Verifying); }
  }

  lemma DiscardsOne(op: Op, pick: Name)
    requires pick in op.work && op.work[pick] == DiscardRequired
    ensures Work(op.(work := op.work[pick := Discarded])) < Work(op)
  {
    var op' := op.(work := op.work[pick := Discarded]);
    assert ParticipantWork(op') == ParticipantWork(op);
    assert Unknown(op') == Unknown(op);
    assert Unsettled(op') == Unsettled(op) - {pick} && pick in Unsettled(op);
  }

  lemma DiscardStepProgress(op: Op, pick: Name, discard: bool)
    requires op.stage == Discarding && InOrder(op) && Useful(op, pick)
    ensures InOrder(Forward(op, pick, discard)) && Measure(Forward(op, pick, discard)) < Measure(op)
  {
    if SomeWork(op, DiscardRequired) { DiscardsOne(op, pick); } else { MoveOn(op, Releasing); }
  }

  lemma ReleaseStepProgress(op: Op, pick: Name, discard: bool)
    requires op.stage == Releasing && InOrder(op) && Useful(op, pick)
    ensures InOrder(Forward(op, pick, discard)) && Measure(Forward(op, pick, discard)) < Measure(op)
  {
    if SomeStatus(op, {Verified}) { MarkShrinks(op, pick, Released); }
    else {
      forall p | p in op.participants ensures op.participants[p].status == Released { RankIs(op.participants[p].status); }
      assert AllDone(op);
    }
  }

  /** Every useful step with a positive answer decreases the measure and leaves the next
      stage what it expects. */
  lemma StepProgress(op: Op, pick: Name, discard: bool)
    requires op.stage != Complete && op.stage != ManualRepair && InOrder(op) && Useful(op, pick)
    ensures InOrder(Forward(op, pick, discard)) && Measure(Forward(op, pick, discard)) < Measure(op)
  {
    match op.stage
    case MaterializingLoss => LossStepProgress(op, pick, discard);
    case Restoring => RestoreStepProgress(op, pick, discard);
    case Reconciling => ReconcileStepProgress(op, pick, discard);
    case Discarding => DiscardStepProgress(op, pick, discard);
    case Releasing => ReleaseStepProgress(op, pick, discard);
    case Verifying => VerifyingProgress(op, pick, discard);
    case Revalidating => RevalidatingProgress(op, pick, discard);
    case _ => FencingProgress(op, pick, discard);
  }

  // ---- where a restore starts ----

  predicate Fresh(op: Op) { op.stage == Previewed ==> Between(op, 0, 0) }

  lemma {:induction false} PreviewedIsFresh(run: seq<Event>, id: RestoreId)
    ensures id in From(Start, run).ops ==> Fresh(From(Start, run).ops[id])
  {
    if run != [] {
      var s := From(Start, run[..|run| - 1]);
      PreviewedIsFresh(run[..|run| - 1], id);
      RunKeeps(Start, run[..|run| - 1]);
      FreshStays(s, run[|run| - 1], id);
    }
  }

  lemma FreshStays(s: Sys, e: Event, id: RestoreId)
    requires Inv(s) && (id in s.ops ==> Fresh(s.ops[id]))
    ensures id in Next(s, e).ops ==> Fresh(Next(s, e).ops[id])
  {
    if id !in s.ops { OnlyPreviewsAppear(s, e, id); }
    else if e.Preview? || e.Execute? || e.Forget? {}
    else if s.gate.active != Some(id) { OthersAreUntouched(s, e, id); }
    else {
      assert GateOk(s, id) && OpOk(s.ops[id]);
      match e
      case Advance(answer, pick, discard) => AdvancedIsNotPreviewed(s, answer, pick, discard);
      case Register(c, existing) => RegisteredIsNotPreviewed(s, c, existing);
      case _ => RepairedIsNotPreviewed(s, e);
    }
  }

  lemma AdvancedIsNotPreviewed(s: Sys, answer: Answer, pick: Name, discard: bool)
    requires Gated(s).Some? && OpOk(Gated(s).value) && IsFenced(Gated(s).value.stage)
    ensures AdvanceStep(s, Gated(s).value, answer, pick, discard).ops[s.gate.active.value].stage != Previewed
  {
    ForwardIsOk(Gated(s).value, pick, discard);
  }

  lemma RegisteredIsNotPreviewed(s: Sys, c: Name, existing: bool)
    requires Gated(s).Some? && OpOk(Gated(s).value) && IsFenced(Gated(s).value.stage)
    ensures RegisterStep(s, c, existing).ops[s.gate.active.value].stage != Previewed
  {
    InventoriedIsOk(Gated(s).value, c);
  }

  lemma RepairedIsNotPreviewed(s: Sys, e: Event)
    requires Gated(s).Some? && OpOk(Gated(s).value) && IsFenced(Gated(s).value.stage) && (e.Resume? || e.Rollback?)
    ensures Next(s, e).ops[s.gate.active.value].stage != Previewed
  {
    assert Resumed(Gated(s).value).stage != Previewed;
  }

  /** The operation an execute request starts is in order. */
  lemma {:induction false} ExecuteStartsInOrder(run: seq<Event>, id: RestoreId)
    ensures var s := From(Start, run); var s' := Next(s, Execute(id));
      s' != s ==> id in s'.ops && s'.gate.active == Some(id) && s'.ops[id].stage != ManualRepair && InOrder(s'.ops[id])
  {
    PreviewedIsFresh(run, id);
    RunKeeps(Start, run);
    var s := From(Start, run);
    if id in s.ops { assert OpOk(s.ops[id]); }
  }

  // ---- whole runs, registrations in between ----

  /** A new coordinator adds one loss page and one settlement, and at most sends the
      restore back to collecting losses. */
  lemma RegistrationAddsWork(op: Op, c: Name)
    requires c !in op.work
    ensures Work(Inventoried(op, c)) == Work(op) + 2
  {
    var op' := Inventoried(op, c);
    assert Unknown(op') == Unknown(op) + {c} && Unsettled(op') == Unsettled(op) + {c};
    assert Below(op', 1) == Below(op, 1) && ParticipantWork(op') == ParticipantWork(op);
  }

  datatype Move = Step(pick: Name, discard: bool) | Join(coordinator: Name)

  /** A positive step, or a registration that is accepted unless the restore is finalizing. */
  function Moved(op: Op, m: Move): Op {
    match m
    case Step(pick, discard) => Forward(op, pick, discard)
    case Join(c) => if op.stage == Complete || RegistrationRefused(op, true) then op else Inventoried(op, c)
  }

  function Moves(op: Op, moves: seq<Move>): Op {
    if moves == [] then op else Moved(Moves(op, moves[..|moves| - 1]), moves[|moves| - 1])
  }

  predicate AllUseful(op: Op, moves: seq<Move>) {
    moves != [] ==>
      var before := moves[..|moves| - 1];
      AllUseful(op, before) && (moves[|moves| - 1].Step? ==> Useful(Moves(op, before), moves[|moves| - 1].pick))
  }

  function Joins(moves: seq<Move>): nat {
    if moves == [] then 0 else Joins(moves[..|moves| - 1]) + if moves[|moves| - 1].Join? then 1 else 0
  }

  /** In order, and with at most this much left to do. */
  predicate Within(op: Op, bound: int) { op.stage != ManualRepair && InOrder(op) && (op.stage == Complete || Measure(op) <= bound) }

  lemma StaysWithin(op: Op, pick: Name, discard: bool, bound: int)
    requires Within(op, bound) && Useful(op, pick)
    ensures Within(Forward(op, pick, discard), bound - 1)
  {
    if op.stage != Complete { StepProgress(op, pick, discard); }
  }

  lemma JoinCosts(op: Op, c: Name, bound: int)
    requires Within(op, bound)
    ensures Within(Moved(op, Join(c)), bound + 24)
  {
    if op.stage != Complete && !RegistrationRefused(op, true) && c !in op.work { RegistrationAddsWork(op, c); }
  }

  lemma {:induction false} MovesStayWithin(op: Op, moves: seq<Move>)
    requires op.stage != ManualRepair && InOrder(op) && AllUseful(op, moves)
    ensures Within(Moves(op, moves), Measure(op) - |moves| + 25 * Joins(moves))
  {
    if moves != [] {
      var n := |moves| - 1;
      MovesStayWithin(op, moves[..n]);
      var bound := Measure(op) - n + 25 * Joins(moves[..n]);
      match moves[n]
      case Step(pick, discard) => StaysWithin(Moves(op, moves[..n]), pick, discard, bound);
      case Join(c) => JoinCosts(Moves(op, moves[..n]), c, bound);
    }
  }

  /** A restore in order whose steps are answered well completes, wherever it is and
      however registrations fall between its steps: each registration costs it at most 24
      more steps. */
  lemma RestoreCompletes(op: Op, moves: seq<Move>)
    requires op.stage != ManualRepair && InOrder(op) && AllUseful(op, moves) && |moves| >= Measure(op) + 25 * Joins(moves)
    ensures Moves(op, moves).stage == Complete
  {
    MovesStayWithin(op, moves);
    if Moves(op, moves).stage != Complete { PositiveDistance(Moves(op, moves)); }
  }

  lemma PositiveDistance(op: Op)
    requires op.stage != Complete && op.stage != ManualRepair && InOrder(op)
    ensures Measure(op) > 0
  {
  }

  // ---- parked in between ----

  lemma ParkingKeepsOrder(op: Op)
    requires InOrder(op) && IsFenced(op.stage) && op.stage != ManualRepair && op.resume.None?
    ensures InOrder(Parked(op)) && Resumed(Parked(op)) == op && Work(Parked(op)) == Work(op)
  {
  }

  /** A registration keeps the restore in order except in one case: the restore is parked
      before restoring, and some participant is not yet revalidated. The parked stage is
      then overwritten, whatever it was. */
  lemma RegistrationKeepsOrderIff(op: Op, c: Name)
    requires InOrder(op) && OpOk(op) && IsFenced(op.stage) && Effective(op) != Releasing
    ensures InOrder(Inventoried(op, c)) <==>
      !(op.stage == ManualRepair && BeforeRestore(op.resume.value) && c !in op.work && SomeStatus(op, {PPreviewed, PFenced}))
  {
    var op' := Inventoried(op, c);
    assert op'.participants == op.participants;
    if SomeStatus(op, {PPreviewed, PFenced}) {
      var p :| p in op.participants && op.participants[p].status in {PPreviewed, PFenced};
      RankIs(op.participants[p].status);
      assert !Between(op', 2, 7);
    } else {
      forall p | p in op.participants ensures Rank(op.participants[p].status) >= 2 { RankIs(op.participants[p].status); }
    }
    assert LossesKnown(op) && c in op.work ==> LossesKnown(op');
  }

  // ---- stranded ----

  /** Resuming, or about to resume, past the fencing with nothing fenced and nothing to undo. */
  predicate Stranded(op: Op) {
    && Effective(op) in {MaterializingLoss, Restoring} && (op.stage != ManualRepair ==> op.resume.None?)
    && op.participants != map[]
    && (forall p | p in op.participants :: op.participants[p].status in {PPreviewed, PFenced} && !op.participants[p].undo)
  }

  lemma StrandedStep(op: Op, pick: Name, discard: bool)
    requires Stranded(op)
    ensures Stranded(Forward(op, pick, discard))
  {
    var p :| p in op.participants;
  }

  lemma StrandedStays(s: Sys, e: Event)
    requires Inv(s) && Gated(s).Some? && Stranded(Gated(s).value)
    ensures Next(s, e).gate.active == s.gate.active && Gated(Next(s, e)).Some? && Stranded(Gated(Next(s, e)).value)
  {
    var op := Gated(s).value;
    assert OpOk(op) && GateOk(s, s.gate.active.value);
    match e
    case Advance(answer, pick, discard) => StrandedAdvance(s, answer, pick, discard);
    case Register(c, existing) => StrandedRegister(s, c, existing);
    case Resume(_) => StrandedRepair(s, e);
    case Rollback(_, _) => StrandedRepair(s, e);
    case Preview(_, _, _) => StrandedOthers(s, e);
    case Execute(_) => StrandedOthers(s, e);
    case Forget(_) => StrandedOthers(s, e);
  }

  lemma StrandedRegister(s: Sys, c: Name, existing: bool)
    requires Gated(s).Some? && Stranded(Gated(s).value)
    ensures var s' := RegisterStep(s, c, existing); s'.gate.active == s.gate.active && Gated(s').Some? && Stranded(Gated(s').value)
  {
    assert Stranded(Inventoried(Gated(s).value, c));
  }

  lemma StrandedRepair(s: Sys, e: Event)
    requires Gated(s).Some? && Stranded(Gated(s).value) && (e.Resume? || e.Rollback?)
    ensures Next(s, e).gate.active == s.gate.active && Gated(Next(s, e)).Some? && Stranded(Gated(Next(s, e)).value)
  {
    var op := Gated(s).value;
    assert Stranded(Resumed(op));
    assert !CanRollBack(op);
  }

  lemma StrandedOthers(s: Sys, e: Event)
    requires Gated(s).Some? && Stranded(Gated(s).value) && (e.Preview? || e.Execute? || e.Forget?)
    ensures Next(s, e).gate.active == s.gate.active && Gated(Next(s, e)) == Gated(s)
  {
  }

  lemma StrandedAdvance(s: Sys, answer: Answer, pick: Name, discard: bool)
    requires Gated(s).Some? && Stranded(Gated(s).value)
    ensures var s' := AdvanceStep(s, Gated(s).value, answer, pick, discard);
      s'.gate.active == s.gate.active && Gated(s').Some? && Stranded(Gated(s').value)
  {
    StrandedStep(Gated(s).value, pick, discard);
  }

  /** A stranded restore never ends: no answer, repair, rollback or registration ever opens
      the gate again. */
  lemma {:induction false} StrandedForGood(s: Sys, run: seq<Event>)
    requires Inv(s) && Gated(s).Some? && Stranded(Gated(s).value)
    ensures From(s, run).gate.active == s.gate.active && Gated(From(s, run)).Some? && Stranded(Gated(From(s, run)).value)
  {
    if run != [] {
      StrandedForGood(s, run[..|run| - 1]);
      RunKeeps(s, run[..|run| - 1]);
      StrandedStays(From(s, run[..|run| - 1]), run[|run| - 1]);
    }
  }

  lemma {:induction false} FromStep(s: Sys, run: seq<Event>, e: Event)
    ensures From(s, run + [e]) == Next(From(s, run), e)
  {
    assert (run + [e])[..|run + [e]| - 1] == run;
  }

  /** One operation, executed, parked at its first fencing step. */
  lemma CanPark(id: RestoreId, p: Name) returns (s: Sys)
    ensures From(Start, [Preview(id, {p}, {}), Execute(id), Advance(Park, p, false)]) == s
    ensures s.gate == Gate(Some(id), 1) && s.registry == {} && id in s.ops
    ensures s.ops[id].stage == ManualRepair && s.ops[id].resume == Some(FencingCatalogs) && s.ops[id].work == map[]
    ensures s.ops[id].participants == map[p := Participant(PPreviewed, false)]
  {
    FromStep(Start, [], Preview(id, {p}, {}));
    FromStep(Start, [Preview(id, {p}, {})], Execute(id));
    FromStep(Start, [Preview(id, {p}, {}), Execute(id)], Advance(Park, p, false));
    assert [] + [Preview(id, {p}, {})] == [Preview(id, {p}, {})];
    assert [Preview(id, {p}, {})] + [Execute(id)] == [Preview(id, {p}, {}), Execute(id)];
    assert [Preview(id, {p}, {}), Execute(id)] + [Advance(Park, p, false)] == [Preview(id, {p}, {}), Execute(id), Advance(Park, p, false)];
    s := Next(Next(Next(Start, Preview(id, {p}, {})), Execute(id)), Advance(Park, p, false));
    assert s.ops[id].participants == map[p := Participant(PPreviewed, false)];
    assert s.ops[id].work == map[];
  }

  lemma ParkedRegistrationStrands(s: Sys, p: Name, c: Name)
    requires Gated(s).Some? && Gated(s).value.participants == map[p := Participant(PPreviewed, false)] && Gated(s).value.work == map[]
    requires Gated(s).value.stage == ManualRepair && Gated(s).value.resume == Some(FencingCatalogs)
    ensures Gated(Next(s, Register(c, true))).Some? && Stranded(Gated(Next(s, Register(c, true))).value)
  {
    var op := Inventoried(Gated(s).value, c);
    assert op.participants == map[p := Participant(PPreviewed, false)] && p in op.participants;
  }

  /** And it is reached by one parked fencing step and one registration. */
  lemma CanStrand(id: RestoreId, p: Name, c: Name) returns (s: Sys)
    ensures From(Start, [Preview(id, {p}, {}), Execute(id), Advance(Park, p, false)] + [Register(c, true)]) == s
    ensures Gated(s).Some? && Stranded(Gated(s).value)
  {
    var parked := CanPark(id, p);
    FromStep(Start, [Preview(id, {p}, {}), Execute(id), Advance(Park, p, false)], Register(c, true));
    ParkedRegistrationStrands(parked, p, c);
    s := Next(parked, Register(c, true));
  }
}
