/** Where a rollback ends: with positive answers it always does, and with one lost answer it
    can leave a shard armed. */
module RestoreRollback {
  import opened Basics
  import opened RestoreSpec
  import opened Restore
  import opened RestoreProgress
  import opened RestoreFleet

  // ---- a rollback that is answered well ----

  /** The rows a rollback expects. */
  predicate BackOk(op: Op) {
    && (Effective(op) == RollbackParticipants ==>
          forall p | p in op.participants :: Rank(op.participants[p].status) >= 9 && (Rank(op.participants[p].status) <= 11 && op.participants[p].status != RollbackNotNeeded ==> op.participants[p].undo))
    && (Effective(op) == RollbackReleasing ==>
          forall p | p in op.participants :: op.participants[p].status in {RollbackNotNeeded, RollbackVerified, RollbackReleased})
  }

  lemma StartedIsBackOk(op: Op)
    ensures BackOk(RolledBackFrom(op))
  {
  }

  lemma UndoingIsBackOk(op: Op, pick: Name, discard: bool)
    requires BackOk(op) && op.stage == RollbackParticipants
    ensures BackOk(Forward(op, pick, discard))
  {
    if SomeStatus(op, {RollbackPending, RollbackStaged, RollbackActivationRequested}) {
      var op' := Forward(op, pick, discard);
      assert op' == op || (pick in op.participants && op' == Mark(op, pick, op'.participants[pick].status) && 9 <= Rank(op'.participants[pick].status) <= 12);
    } else {
      forall p | p in op.participants ensures op.participants[p].status in {RollbackNotNeeded, RollbackVerified, RollbackReleased} {
        assert op.participants[p].status !in {RollbackPending, RollbackStaged, RollbackActivationRequested};
      }
    }
  }

  lemma FreeingIsBackOk(op: Op, pick: Name, discard: bool)
    requires BackOk(op) && op.stage == RollbackReleasing
    ensures BackOk(Forward(op, pick, discard))
  {
  }

  lemma ForwardIsBackOk(op: Op, pick: Name, discard: bool)
    requires BackOk(op) && OpOk(op) && op.stage != ManualRepair
    ensures BackOk(Forward(op, pick, discard))
  {
    if op.stage == RollbackParticipants { UndoingIsBackOk(op, pick, discard); }
    else if op.stage == RollbackReleasing { FreeingIsBackOk(op, pick, discard); }
  }

  lemma NextIsBackOk(s: Sys, e: Event, id: RestoreId)
    requires Inv(s) && (id in s.ops ==> BackOk(s.ops[id]))
    ensures id in Next(s, e).ops ==> BackOk(Next(s, e).ops[id])
  {
    if id !in s.ops { OnlyPreviewsAppear(s, e, id); }
    else {
      var op := s.ops[id];
      assert OpOk(op) && GateOk(s, id);
      if e.Preview? || e.Forget? { NoOpChanges(s, e, id); }
      else if e.Execute? { ExecutedIsBackOk(s, e, id); }
      else if s.gate.active != Some(id) { OthersAreUntouched(s, e, id); }
      else if e.Advance? { TickStores(s, id, op, e); TickedIsBackOk(op, e); }
      else if e.Register? { InventoriedIsBackOk(s, op, e); }
      else { RepairStores(s, id, op, e); StartedIsBackOk(op); }
    }
  }

  lemma ExecutedIsBackOk(s: Sys, e: Event, id: RestoreId)
    requires e.Execute? && id in s.ops && BackOk(s.ops[id])
    ensures id in Next(s, e).ops && BackOk(Next(s, e).ops[id])
  {
  }

  lemma TickedIsBackOk(op: Op, e: Event)
    requires e.Advance? && BackOk(op) && OpOk(op)
    ensures BackOk(TickedRow(op, e))
  {
    if op.stage != ManualRepair { ForwardIsBackOk(op, e.pick, e.discard); }
  }

  lemma InventoriedIsBackOk(s: Sys, op: Op, e: Event)
    requires Gated(s) == Some(op) && e.Register? && BackOk(op) && OpOk(op) && IsFenced(op.stage)
    ensures Gated(Next(s, e)).Some? && BackOk(Gated(Next(s, e)).value)
  {
    InventoriedIsOk(op, e.coordinator);
  }

  lemma {:induction false} RunIsBackOk(run: seq<Event>, id: RestoreId)
    ensures id in From(Start, run).ops ==> BackOk(From(Start, run).ops[id])
  {
    if run != [] {
      RunIsBackOk(run[..|run| - 1], id);
      RunKeeps(Start, run[..|run| - 1]);
      NextIsBackOk(From(Start, run[..|run| - 1]), run[|run| - 1], id);
    }
  }

  /** The operation was parked in the middle of a rollback. */
  predicate ParkedRollback(op: Op) { op.stage == ManualRepair && op.resume.Some? && IsRollback(op.resume.value) }

  /** A rollback request resumes a parked rollback when its blocker can be retried, starts
      one that can start with a valid undo, and otherwise changes nothing. */
  lemma RollbackRequest(s: Sys, undoValid: bool, retryable: bool)
    requires Inv(s)
    ensures var s' := Next(s, Rollback(undoValid, retryable)); var gated := Gated(s);
      if gated.Some? && ParkedRollback(gated.value) && retryable then Gated(s') == Some(gated.value.(stage := gated.value.resume.value, resume := None))
      else if gated.Some? && !ParkedRollback(gated.value) && undoValid && CanRollBack(gated.value) then Gated(s').Some? && Gated(s').value.stage == RollbackParticipants
      else s' == s
  {
    if s.gate.active.Some? { assert GateOk(s, s.gate.active.value) && OpOk(s.ops[s.gate.active.value]); }
  }

  /** The step works on one of the rows its stage selects, if it selects any. */
  predicate UsefulBack(op: Op, pick: Name) {
    match op.stage
    case RollbackParticipants =>
      SomeStatus(op, {RollbackPending, RollbackStaged, RollbackActivationRequested}) ==> Is(op, pick, {RollbackPending, RollbackStaged, RollbackActivationRequested})
    case RollbackReleasing => SomeStatus(op, {RollbackVerified, RollbackNotNeeded}) ==> Is(op, pick, {RollbackVerified, RollbackNotNeeded})
    case _ => true
  }

  /** Rungs still to climb, and stages. */
  function BackWork(op: Op): nat { |Below(op, 10)| + |Below(op, 11)| + |Below(op, 12)| + |Below(op, 13)| }

  function BackMeasure(op: Op): nat {
    match op.stage
    case RollbackParticipants => 3 * BackWork(op) + 2
    case RollbackReleasing => 3 * BackWork(op) + 1
    case _ => 0
  }

  lemma MarkShrinksBack(op: Op, p: Name, status: Status)
    requires p in op.participants && 9 <= Rank(op.participants[p].status) < Rank(status)
    ensures BackWork(Mark(op, p, status)) < BackWork(op)
  {
    var op' := Mark(op, p, status);
    BelowShrinks(op, op', p, 10);
    BelowShrinks(op, op', p, 11);
    BelowShrinks(op, op', p, 12);
    BelowShrinks(op, op', p, 13);
  }

  /** Every useful step of a rollback, answered well, brings it nearer to its end. */
  lemma BackProgress(op: Op, pick: Name, discard: bool)
    requires IsRollback(op.stage) && BackOk(op) && OpOk(op) && UsefulBack(op, pick)
    ensures var op' := Forward(op, pick, discard);
      (op'.stage == RolledBack || IsRollback(op'.stage)) && BackOk(op') && BackMeasure(op') < BackMeasure(op)
  {
    ForwardIsBackOk(op, pick, discard);
    var op' := Forward(op, pick, discard);
    if op.stage == RollbackParticipants { ParticipantsProgress(op, pick, discard); } else { ReleasingProgress(op, pick, discard); }
  }

  lemma ParticipantsProgress(op: Op, pick: Name, discard: bool)
    requires op.stage == RollbackParticipants && BackOk(op) && OpOk(op) && UsefulBack(op, pick)
    ensures var op' := Forward(op, pick, discard); IsRollback(op'.stage) && BackMeasure(op') < BackMeasure(op)
  {
    if SomeStatus(op, {RollbackPending, RollbackStaged, RollbackActivationRequested}) {
      var q := op.participants[pick];
      var to := if q.status == RollbackPending then RollbackStaged else if q.status == RollbackStaged then RollbackActivationRequested else RollbackVerified;
      assert q.undo && Forward(op, pick, discard) == Mark(op, pick, to);
      MarkShrinksBack(op, pick, to);
    } else {
      assert BackWork(op.(stage := RollbackReleasing)) == BackWork(op);
    }
  }

  lemma ReleasingProgress(op: Op, pick: Name, discard: bool)
    requires op.stage == RollbackReleasing && BackOk(op) && OpOk(op) && UsefulBack(op, pick)
    ensures var op' := Forward(op, pick, discard); (op'.stage == RolledBack || IsRollback(op'.stage)) && BackMeasure(op') < BackMeasure(op)
  {
    if SomeStatus(op, {RollbackVerified, RollbackNotNeeded}) {
      MarkShrinksBack(op, pick, RollbackReleased);
    } else {
      forall p | p in op.participants ensures op.participants[p].status == RollbackReleased {
        assert op.participants[p].status !in {RollbackVerified, RollbackNotNeeded};
      }
    }
  }

  /** The operation after these steps, each answered well. */
  function Steps(op: Op, picks: seq<Name>): Op {
    if picks == [] then op else Forward(Steps(op, picks[..|picks| - 1]), picks[|picks| - 1], false)
  }

  predicate AllUsefulBack(op: Op, picks: seq<Name>) {
    picks != [] ==> AllUsefulBack(op, picks[..|picks| - 1]) && UsefulBack(Steps(op, picks[..|picks| - 1]), picks[|picks| - 1])
  }

  lemma {:induction false} StepsProgress(op: Op, picks: seq<Name>)
    requires IsRollback(op.stage) && BackOk(op) && OpOk(op) && AllUsefulBack(op, picks)
    ensures var op' := Steps(op, picks);
      op'.stage == RolledBack || (IsRollback(op'.stage) && BackOk(op') && OpOk(op') && BackMeasure(op') + |picks| <= BackMeasure(op))
  {
    if picks != [] {
      var n := |picks| - 1;
      StepsProgress(op, picks[..n]);
      var before := Steps(op, picks[..n]);
      if before.stage != RolledBack {
        BackProgress(before, picks[n], false);
        ForwardIsOk(before, picks[n], false);
      }
    }
  }

  /** A rollback that was started in any run ends rolled back when its steps are answered
      well: after at most twelve of them for each participant, and two more. */
  lemma {:induction false} RollbackEnds(run: seq<Event>, id: RestoreId, picks: seq<Name>)
    requires id in From(Start, run).ops && IsRollback(From(Start, run).ops[id].stage)
    requires AllUsefulBack(From(Start, run).ops[id], picks) && |picks| >= 12 * |From(Start, run).ops[id].participants| + 2
    ensures Steps(From(Start, run).ops[id], picks).stage == RolledBack
  {
    RunIsBackOk(run, id);
    RunKeeps(Start, run);
    var op := From(Start, run).ops[id];
    assert OpOk(op);
    StepsProgress(op, picks);
    MeasureIsBounded(op);
    if IsRollback(Steps(op, picks).stage) { PositiveBack(Steps(op, picks)); }
  }

  lemma PositiveBack(op: Op)
    requires IsRollback(op.stage)
    ensures BackMeasure(op) > 0
  {
  }

  lemma MeasureIsBounded(op: Op)
    ensures BackMeasure(op) <= 12 * |op.participants| + 2
  {
    assert |op.participants| == |op.participants.Keys|;
    SubsetIsNoLarger(Below(op, 10), op.participants.Keys);
    SubsetIsNoLarger(Below(op, 11), op.participants.Keys);
    SubsetIsNoLarger(Below(op, 12), op.participants.Keys);
    SubsetIsNoLarger(Below(op, 13), op.participants.Keys);
  }

  // ---- a rollback that leaves a shard armed ----

  /** Two shards under a restore: stage, rows, shards, and the first one's stored undo. */
  datatype Spot = Spot(stage: Stage, a: Participant, b: Participant, x: Shard, y: Shard, undo: Option<Content>)

  ghost predicate CanHappen(id: RestoreId, w: World) { exists hs: seq<Happening> :: After(id, Begin, hs) == w }

  ghost predicate IsAt(id: RestoreId, p: Name, q: Name, w: World, spot: Spot) {
    && CanHappen(id, w) && p != q && id in w.s.ops && (w.s.gate.active == Some(id) <==> spot.stage != RolledBack)
    && var op := w.s.ops[id];
       && op.stage == spot.stage && op.resume.None? && op.participants.Keys == {p, q} && op.participants[p] == spot.a && op.participants[q] == spot.b
       && op.work == map[] && ShardOf(w, p) == spot.x && ShardOf(w, q) == spot.y && UndoOf(w, p) == spot.undo
  }

  const NoLoss := LossPage(0, false)

  lemma {:induction false} Happens(id: RestoreId, w: World, h: Happening) returns (w': World)
    requires CanHappen(id, w)
    ensures CanHappen(id, w') && w' == NextWorld(id, w, h)
  {
    var hs: seq<Happening> :| After(id, Begin, hs) == w;
    assert (hs + [h])[..|hs + [h]| - 1] == hs;
    w' := NextWorld(id, w, h);
    assert After(id, Begin, hs + [h]) == w';
  }

  /** One tick: `pick` moves from one spot to the next. */
  lemma Ticks(id: RestoreId, p: Name, q: Name, w: World, pick: Name, took: bool, from: Spot, to: Spot) returns (w': World)
    requires IsAt(id, p, q, w, from) && IsFenced(from.stage) && IsFenced(to.stage)
    requires var op := w.s.ops[id]; CallOf(op, pick) == Verify ==> ShardOf(w, pick).armed.None?
    requires var op := w.s.ops[id]; var op' := Forward(op, pick, false); var c := Called(w, CallOf(op, pick), pick, true, took);
      && op'.stage == to.stage && op'.resume.None? && op'.participants.Keys == {p, q} && op'.participants[p] == to.a && op'.participants[q] == to.b
      && op'.work == map[] && ShardOf(c, p) == to.x && ShardOf(c, q) == to.y && UndoOf(c, p) == to.undo
    ensures IsAt(id, p, q, w', to)
  {
    w' := Happens(id, w, Request(Advance(Positive, pick, false), took, NoLoss));
  }

  const Fresh := Participant(PPreviewed, false)
  const Fenced := Untouched.(fenced := true)

  lemma CanExecute(id: RestoreId, p: Name, q: Name) returns (w: World)
    requires p != q
    ensures IsAt(id, p, q, w, Spot(FencingCatalogs, Fresh, Fresh, Untouched, Untouched, None))
  {
    assert After(id, Begin, []) == Begin;
    w := Happens(id, Begin, Request(Preview(id, {p, q}, {}), false, NoLoss));
    w := Happens(id, w, Request(Execute(id), false, NoLoss));
  }

  lemma CanFence(id: RestoreId, p: Name, q: Name) returns (w: World)
    requires p != q
    ensures IsAt(id, p, q, w, Spot(FencingParticipants, Participant(PFenced, false), Participant(PFenced, false), Fenced, Fenced, None))
  {
    var s0 := Spot(FencingCatalogs, Fresh, Fresh, Untouched, Untouched, None);
    var s1 := s0.(stage := FencingParticipants);
    var s2 := s1.(a := Participant(PFenced, false), x := Fenced);
    w := CanExecute(id, p, q);
    w := Ticks(id, p, q, w, p, false, s0, s1);
    w := Ticks(id, p, q, w, p, false, s1, s2);
    w := Ticks(id, p, q, w, q, false, s2, s2.(b := Participant(PFenced, false), y := Fenced));
  }

  lemma CanRevalidate(id: RestoreId, p: Name, q: Name) returns (w: World)
    requires p != q
    ensures IsAt(id, p, q, w, Spot(Revalidating, Participant(PReady, false), Participant(PReady, false), Fenced, Fenced, None))
  {
    var s0 := Spot(FencingParticipants, Participant(PFenced, false), Participant(PFenced, false), Fenced, Fenced, None);
    var s1 := s0.(stage := Revalidating);
    var s2 := s1.(a := Participant(PReady, false));
    w := CanFence(id, p, q);
    w := Ticks(id, p, q, w, p, false, s0, s1);
    w := Ticks(id, p, q, w, p, false, s1, s2);
    w := Ticks(id, p, q, w, q, false, s2, s2.(b := Participant(PReady, false)));
  }

  const Known := Participant(LossMaterialized, false)

  lemma CanKnowOne(id: RestoreId, p: Name, q: Name) returns (w: World)
    requires p != q
    ensures IsAt(id, p, q, w, Spot(MaterializingLoss, Known, Participant(PReady, false), Fenced, Fenced, None))
  {
    var s0 := Spot(Revalidating, Participant(PReady, false), Participant(PReady, false), Fenced, Fenced, None);
    var s1 := s0.(stage := MaterializingLoss);
    w := CanRevalidate(id, p, q);
    w := Ticks(id, p, q, w, p, false, s0, s1);
    w := Ticks(id, p, q, w, p, false, s1, s1.(a := Known));
  }

  lemma CanKnowLosses(id: RestoreId, p: Name, q: Name) returns (w: World)
    requires p != q
    ensures IsAt(id, p, q, w, Spot(Restoring, Known, Known, Fenced, Fenced, None))
  {
    var s2 := Spot(MaterializingLoss, Known, Participant(PReady, false), Fenced, Fenced, None);
    var s3 := s2.(b := Known);
    w := CanKnowOne(id, p, q);
    w := Ticks(id, p, q, w, q, false, s2, s3);
    w := Ticks(id, p, q, w, p, false, s3, s3.(stage := Restoring));
  }

  const Armed := Shard(Original, Some(Target), true)

  /** The first shard is staged; the second is too, and its answer is lost. */
  lemma CanLoseAnswer(id: RestoreId, p: Name, q: Name) returns (w: World)
    requires p != q
    ensures IsAt(id, p, q, w, Spot(Restoring, Participant(Staged, true), Known, Armed, Armed, Some(Original)))
  {
    var s0 := Spot(Restoring, Known, Known, Fenced, Fenced, None);
    w := CanKnowLosses(id, p, q);
    w := Ticks(id, p, q, w, p, false, s0, Spot(Restoring, Participant(Staged, true), Known, Armed, Fenced, Some(Original)));
    w := Happens(id, w, Request(Advance(Again, q, false), true, NoLoss));
  }

  lemma CanStartBack(id: RestoreId, p: Name, q: Name) returns (w: World)
    requires p != q
    ensures IsAt(id, p, q, w, Spot(RollbackParticipants, Participant(RollbackPending, true), Participant(RollbackNotNeeded, false), Armed, Armed, Some(Original)))
  {
    w := CanLoseAnswer(id, p, q);
    assert p in w.s.ops[id].participants && w.s.ops[id].participants[p].undo;
    assert CanRollBack(w.s.ops[id]);
    w := Happens(id, w, Request(Rollback(true, true), false, NoLoss));
  }

  const Undoing := Shard(Original, Some(Original), true)

  lemma CanCallUndo(id: RestoreId, p: Name, q: Name) returns (w: World)
    requires p != q
    ensures IsAt(id, p, q, w, Spot(RollbackParticipants, Participant(RollbackStaged, true), Participant(RollbackNotNeeded, false), Undoing, Armed, Some(Original)))
  {
    var s0 := Spot(RollbackParticipants, Participant(RollbackPending, true), Participant(RollbackNotNeeded, false), Armed, Armed, Some(Original));
    w := CanStartBack(id, p, q);
    w := Ticks(id, p, q, w, p, false, s0, s0.(a := Participant(RollbackStaged, true), x := Undoing));
  }

  lemma CanApplyUndo(id: RestoreId, p: Name, q: Name) returns (w: World)
    requires p != q
    ensures IsAt(id, p, q, w, Spot(RollbackParticipants, Participant(RollbackVerified, true), Participant(RollbackNotNeeded, false), Fenced, Armed, Some(Original)))
  {
    var s1 := Spot(RollbackParticipants, Participant(RollbackStaged, true), Participant(RollbackNotNeeded, false), Undoing, Armed, Some(Original));
    var s2 := s1.(a := Participant(RollbackActivationRequested, true), x := Fenced);
    w := CanCallUndo(id, p, q);
    w := Ticks(id, p, q, w, p, true, s1, s2);
    w := Ticks(id, p, q, w, p, false, s2, s2.(a := Participant(RollbackVerified, true)));
  }

  lemma CanUndo(id: RestoreId, p: Name, q: Name) returns (w: World)
    requires p != q
    ensures IsAt(id, p, q, w, Spot(RollbackReleasing, Participant(RollbackVerified, true), Participant(RollbackNotNeeded, false), Fenced, Armed, Some(Original)))
  {
    var s3 := Spot(RollbackParticipants, Participant(RollbackVerified, true), Participant(RollbackNotNeeded, false), Fenced, Armed, Some(Original));
    w := CanApplyUndo(id, p, q);
    w := Ticks(id, p, q, w, p, false, s3, s3.(stage := RollbackReleasing));
  }

  lemma CanRelease(id: RestoreId, p: Name, q: Name) returns (w: World)
    requires p != q
    ensures IsAt(id, p, q, w, Spot(RollbackReleasing, Participant(RollbackReleased, true), Participant(RollbackReleased, false), Untouched, Armed.(fenced := false), Some(Original)))
  {
    var s0 := Spot(RollbackReleasing, Participant(RollbackVerified, true), Participant(RollbackNotNeeded, false), Fenced, Armed, Some(Original));
    var s1 := s0.(a := Participant(RollbackReleased, true), x := Untouched);
    w := CanUndo(id, p, q);
    w := Ticks(id, p, q, w, p, false, s0, s1);
    w := Ticks(id, p, q, w, q, false, s1, s1.(b := Participant(RollbackReleased, false), y := Armed.(fenced := false)));
  }

  lemma CanEnd(id: RestoreId, p: Name, q: Name) returns (w: World)
    requires p != q
    ensures IsAt(id, p, q, w, Spot(RolledBack, Participant(RollbackReleased, true), Participant(RollbackReleased, false), Untouched, Armed.(fenced := false), Some(Original)))
    ensures w.s.gate.active.None?
  {
    w := CanRelease(id, p, q);
    assert forall r | r in w.s.ops[id].participants :: r == p || r == q;
    w := Happens(id, w, Request(Advance(Positive, p, false), false, NoLoss));
  }

  lemma RestartBringsItBack(id: RestoreId, w: World, q: Name)
    requires ShardOf(w, q) == Shard(Original, Some(Target), false)
    ensures ShardOf(NextWorld(id, w, Happening.Restart(q)), q) == Shard(Target, None, false)
  {
  }

  /** A run from the start in which the answer to one staging is lost and every later call
      is answered well: the rollback ends, the gate opens, and the shard whose answer was
      lost is still armed. Its next session brings the restored content back. */
  lemma RollbackCanLeaveArmed(id: RestoreId, p: Name, q: Name) returns (w: World)
    requires p != q
    ensures IsAt(id, p, q, w, Spot(RolledBack, Participant(RollbackReleased, true), Participant(RollbackReleased, false), Untouched, Armed.(fenced := false), Some(Original)))
    ensures w.s.gate.active.None? && ShardOf(NextWorld(id, w, Happening.Restart(q)), q) == Shard(Target, None, false)
  {
    w := CanEnd(id, p, q);
    RestartBringsItBack(id, w, q);
  }
}
