/** What a restore does to the shards: each tick's call with its effect, replies that are
    lost, and sessions that restart at any time. One operation is watched. */
module RestoreFleet {
  import opened Basics
  import opened RestoreSpec
  import opened Restore
  import opened RestoreProgress

  /** A shard's database as it was before this restore, or as of the restore's cutoff. */
  datatype Content = Original | Target

  /** `armed` is the bookmark that the provider applies when the next session starts. */
  datatype Shard = Shard(content: Content, armed: Option<Content>, fenced: bool)

  const Untouched := Shard(Original, None, false)

  /** What the shard will hold once its session has restarted. */
  function Final(sh: Shard): Content { if sh.armed.Some? then sh.armed.value else sh.content }

  function Activated(sh: Shard): Shard { sh.(content := Final(sh), armed := None) }

  /** `undoOf` is the content of each stored undo bookmark, `undone` are the shards that got
      an undo call, `pages` the losses the coordinators reported. */
  datatype World = World(s: Sys, shards: map<Name, Shard>, undoOf: map<Name, Content>, undone: set<Name>, pages: map<Name, LossPage>)

  function ShardOf(w: World, p: Name): Shard { if p in w.shards then w.shards[p] else Untouched }

  function UndoOf(w: World, p: Name): Option<Content> { if p in w.undoOf then Some(w.undoOf[p]) else None }

  datatype Call = NoCall | Fence | Stage | Apply | Verify | Undo | Release

  /** The call of the operation's tick on the participant it picks. */
  function CallOf(op: Op, pick: Name): Call {
    if pick !in op.participants then NoCall
    else
      var q := op.participants[pick];
      match op.stage
      case FencingParticipants => if q.status == PPreviewed then Fence else NoCall
      case Restoring =>
        if q.status == LossMaterialized then Stage else if q.status == Staged then Apply
        else if q.status == ActivationRequested then Verify else NoCall
      case Verifying => if q.status == Restored then Verify else NoCall
      case Releasing => if q.status == Verified then Release else NoCall
      case RollbackParticipants =>
        if !q.undo then NoCall else if q.status == RollbackPending then Undo else if q.status == RollbackStaged then Apply
        else if q.status == RollbackActivationRequested then Verify else NoCall
      case RollbackReleasing => if q.status in {RollbackVerified, RollbackNotNeeded} then Release else NoCall
      case _ => NoCall
  }

  function WithShard(w: World, p: Name, sh: Shard): World { w.(shards := w.shards[p := sh]) }

  /** A call that was answered well took effect; one that failed may have (`took`). Staging
      arms the target and answers with a bookmark of what the shard holds then. The answer
      to an apply is ignored. A verification that is still pending applies again. Releasing
      a shard forgets its marker and leaves an armed bookmark armed. */
  function Called(w: World, call: Call, p: Name, positive: bool, took: bool): World {
    var sh := ShardOf(w, p);
    var effect := positive || took;
    match call
    case NoCall => w
    case Fence => if effect then WithShard(w, p, sh.(fenced := true)) else w
    case Stage =>
      var w' := if effect then WithShard(w, p, sh.(armed := Some(Target))) else w;
      if positive then w'.(undoOf := w.undoOf[p := sh.content]) else w'
    case Apply => if took then WithShard(w, p, Activated(sh)) else w
    case Verify => if !positive && took then WithShard(w, p, Activated(sh)) else w
    case Undo => if effect && p in w.undoOf then WithShard(w, p, sh.(armed := Some(w.undoOf[p]))).(undone := w.undone + {p}) else w
    case Release => if effect then WithShard(w, p, sh.(fenced := false)) else w
  }

  /** The restore gives up before it has staged anything, and releases every fence. */
  function Freed(w: World, op: Op): World {
    w.(shards := map p | p in w.shards.Keys + op.participants.Keys :: if p in op.participants then ShardOf(w, p).(fenced := false) else w.shards[p])
  }

  /** The tick settles a coordinator by the page it reported. */
  predicate SettlesLoss(op: Op, pick: Name) {
    op.stage == MaterializingLoss && !SomeStatus(op, {PReady}) && pick in op.work && op.work[pick] == PendingLoss
  }

  datatype Happening = Request(e: Event, took: bool, page: LossPage) | Restart(p: Name)

  /** A shard verifies its bookmark only in the session after it was armed. */
  predicate MayAnswer(w: World, op: Op, e: Event, page: LossPage)
    requires e.Advance?
  {
    e.answer.Positive? ==> (CallOf(op, e.pick) == Verify ==> ShardOf(w, e.pick).armed.None?) && e.discard == NeedsDiscard(page)
  }

  /** The shards and what is known of them after a tick. */
  function TickedWorld(w: World, op: Op, e: Event, took: bool, page: LossPage): World
    requires e.Advance?
  {
    if e.answer.Stale? then (if BeforeRestore(op.stage) then Freed(w, op) else w)
    else
      Called(w, CallOf(op, e.pick), e.pick, e.answer.Positive?, took).(
        pages := if e.answer.Positive? && SettlesLoss(op, e.pick) then w.pages[e.pick := page] else w.pages)
  }

  function Ticked(id: RestoreId, w: World, e: Event, took: bool, page: LossPage): World
    requires id in w.s.ops && e.Advance?
  {
    if MayAnswer(w, w.s.ops[id], e, page) then TickedWorld(w, w.s.ops[id], e, took, page).(s := Next(w.s, e)) else w
  }

  function NextWorld(id: RestoreId, w: World, h: Happening): World {
    match h
    case Restart(p) => if p in w.shards then WithShard(w, p, Activated(w.shards[p])) else w
    case Request(e, took, page) =>
      if e.Advance? && id in w.s.ops && w.s.gate.active == Some(id) then Ticked(id, w, e, took, page) else w.(s := Next(w.s, e))
  }

  function After(id: RestoreId, w: World, hs: seq<Happening>): World {
    if hs == [] then w else NextWorld(id, After(id, w, hs[..|hs| - 1]), hs[|hs| - 1])
  }

  const Begin := World(Start, map[], map[], {}, map[])

  // ---- what every happening keeps ----

  predicate PartOk(q: Participant, sh: Shard, undo: Option<Content>, undone: bool, failed: bool) {
    && (q.undo <==> undo.Some?) && (undone ==> q.undo) && (!q.undo ==> sh.armed != Some(Original))
    && match q.status
       case PPreviewed => !q.undo && sh.(fenced := false) == Untouched && (failed ==> !sh.fenced)
       case PFenced => !q.undo && sh == Untouched.(fenced := !failed)
       case PReady => !q.undo && sh == Untouched.(fenced := !failed)
       case LossMaterialized => !q.undo && sh.fenced
       case Staged => q.undo && !undone && sh.fenced && Final(sh) == Target
       case ActivationRequested => q.undo && !undone && sh.fenced && Final(sh) == Target
       case Restored => q.undo && !undone && sh == Shard(Target, None, true)
       case Verified => q.undo && !undone && sh.(fenced := true) == Shard(Target, None, true)
       case Released => q.undo && !undone && sh == Shard(Target, None, false)
       case RollbackNotNeeded => !q.undo
       case RollbackPending => q.undo
       case RollbackStaged => q.undo && undone && Final(sh) == undo.value
       case RollbackActivationRequested => q.undo && undone && Final(sh) == undo.value
       case RollbackVerified => q.undo && undone && sh.armed.None? && sh.content == undo.value
       case RollbackReleased => !sh.fenced && (q.undo ==> undone && sh.armed.None? && sh.content == undo.value)
  }

  predicate PartIn(w: World, op: Op, p: Name)
    requires p in op.participants
  {
    PartOk(op.participants[p], ShardOf(w, p), UndoOf(w, p), p in w.undone, op.stage == Failed)
  }

  predicate LossOk(op: Op, pages: map<Name, LossPage>) {
    && pages.Keys <= op.work.Keys
    && forall c | c in op.work ::
         match op.work[c]
         case PendingLoss => c !in pages
         case Retained => c in pages && !NeedsDiscard(pages[c])
         case _ => c in pages && NeedsDiscard(pages[c])
  }

  /** Before restoring, and when that is given up, nothing has been staged. */
  predicate EarlyOk(op: Op) { BeforeRestore(Effective(op)) || op.stage in {Previewed, Failed} ==> Between(op, 0, 2) }

  ghost predicate OpFleetOk(w: World, op: Op) {
    (forall p | p in op.participants :: PartIn(w, op, p)) && LossOk(op, w.pages) && EarlyOk(op)
  }

  ghost predicate FleetOk(id: RestoreId, w: World) {
    && Inv(w.s)
    && if id in w.s.ops then OpFleetOk(w, w.s.ops[id])
       else w.shards == map[] && w.undoOf == map[] && w.undone == {} && w.pages == map[]
  }

  /** The tick works on the participant it picks and on no other. */
  lemma ForwardTouches(op: Op, pick: Name, discard: bool)
    ensures Forward(op, pick, discard).participants.Keys == op.participants.Keys
    ensures forall p | p in op.participants && p != pick :: Forward(op, pick, discard).participants[p] == op.participants[p]
  {
  }

  /** Without a call it moves a row only past its checks. */
  lemma QuietForward(op: Op, pick: Name, discard: bool)
    requires CallOf(op, pick) == NoCall && pick in op.participants && pick in Forward(op, pick, discard).participants
    ensures var q, q' := op.participants[pick], Forward(op, pick, discard).participants[pick];
      q' == q || (q' == q.(status := PReady) && q.status == PFenced) || (q' == q.(status := LossMaterialized) && q.status == PReady)
  {
  }

  /** A call that was answered well, and the row after it. */
  lemma PickForward(w: World, op: Op, pick: Name, discard: bool, took: bool)
    requires pick in op.participants && PartIn(w, op, pick) && op.stage != Failed && CallOf(op, pick) != NoCall
    requires CallOf(op, pick) == Verify ==> ShardOf(w, pick).armed.None?
    ensures var w' := Called(w, CallOf(op, pick), pick, true, took); var op' := Forward(op, pick, discard);
      pick in op'.participants && PartIn(w', op', pick)
  {
    if IsRollback(op.stage) { PickBack(w, op, pick, discard, took); } else { PickOn(w, op, pick, discard, took); }
  }

  lemma PickOn(w: World, op: Op, pick: Name, discard: bool, took: bool)
    requires pick in op.participants && PartIn(w, op, pick) && op.stage != Failed && CallOf(op, pick) != NoCall && !IsRollback(op.stage)
    requires CallOf(op, pick) == Verify ==> ShardOf(w, pick).armed.None?
    ensures var w' := Called(w, CallOf(op, pick), pick, true, took); var op' := Forward(op, pick, discard);
      pick in op'.participants && PartIn(w', op', pick)
  {
  }

  lemma PickBack(w: World, op: Op, pick: Name, discard: bool, took: bool)
    requires pick in op.participants && PartIn(w, op, pick) && CallOf(op, pick) != NoCall && IsRollback(op.stage)
    requires CallOf(op, pick) == Verify ==> ShardOf(w, pick).armed.None?
    ensures var w' := Called(w, CallOf(op, pick), pick, true, took); var op' := Forward(op, pick, discard);
      pick in op'.participants && PartIn(w', op', pick)
  {
    if op.stage == RollbackReleasing { PickFreed(w, op, pick, discard, took); }
  }

  lemma PickFreed(w: World, op: Op, pick: Name, discard: bool, took: bool)
    requires pick in op.participants && PartIn(w, op, pick) && CallOf(op, pick) != NoCall && op.stage == RollbackReleasing
    ensures var w' := Called(w, CallOf(op, pick), pick, true, took); var op' := Forward(op, pick, discard);
      pick in op'.participants && PartIn(w', op', pick)
  {
  }

  /** A call without a good answer, and the row as it was. */
  lemma PickStays(w: World, op: Op, pick: Name, took: bool, op': Op)
    requires pick in op.participants && PartIn(w, op, pick) && op'.participants == op.participants && op.stage != Failed && op'.stage != Failed
    ensures PartIn(Called(w, CallOf(op, pick), pick, false, took), op', pick)
  {
  }

  lemma OthersStay(w: World, call: Call, pick: Name, positive: bool, took: bool, p: Name)
    requires p != pick
    ensures var w' := Called(w, call, pick, positive, took);
      ShardOf(w', p) == ShardOf(w, p) && UndoOf(w', p) == UndoOf(w, p) && (p in w'.undone <==> p in w.undone)
  {
  }

  lemma LossForward(op: Op, pages: map<Name, LossPage>, pick: Name, page: LossPage)
    requires LossOk(op, pages)
    ensures LossOk(Forward(op, pick, NeedsDiscard(page)), if SettlesLoss(op, pick) then pages[pick := page] else pages)
  {
  }

  lemma EarlyForward(op: Op, pick: Name, discard: bool)
    requires EarlyOk(op) && OpOk(op)
    ensures EarlyOk(Forward(op, pick, discard))
  {
  }

  /** A tick of the watched operation, answered well. */
  lemma PositiveKeeps(w: World, op: Op, pick: Name, took: bool, page: LossPage)
    requires OpFleetOk(w, op) && OpOk(op) && op.stage != Failed && (CallOf(op, pick) == Verify ==> ShardOf(w, pick).armed.None?)
    ensures var w' := Called(w, CallOf(op, pick), pick, true, took);
      OpFleetOk(w'.(pages := if SettlesLoss(op, pick) then w.pages[pick := page] else w.pages), Forward(op, pick, NeedsDiscard(page)))
  {
    var op' := Forward(op, pick, NeedsDiscard(page));
    var called := Called(w, CallOf(op, pick), pick, true, took);
    var w' := called.(pages := if SettlesLoss(op, pick) then w.pages[pick := page] else w.pages);
    LossForward(op, w.pages, pick, page);
    EarlyForward(op, pick, NeedsDiscard(page));
    ForwardTouches(op, pick, NeedsDiscard(page));
    forall p | p in op'.participants ensures PartIn(w', op', p) {
      assert PartIn(w, op, p);
      PositivePart(w, op, pick, took, NeedsDiscard(page), p);
    }
  }

  lemma PositivePart(w: World, op: Op, pick: Name, took: bool, discard: bool, p: Name)
    requires p in op.participants && PartIn(w, op, p) && op.stage != Failed && (CallOf(op, pick) == Verify ==> ShardOf(w, pick).armed.None?)
    ensures p in Forward(op, pick, discard).participants && PartIn(Called(w, CallOf(op, pick), pick, true, took), Forward(op, pick, discard), p)
  {
    ForwardTouches(op, pick, discard);
    ForwardNeverFails(op, pick, discard);
    if p != pick { OthersStay(w, CallOf(op, pick), pick, true, took, p); }
    else if CallOf(op, pick) == NoCall { QuietForward(op, pick, discard); }
    else { PickForward(w, op, pick, discard, took); }
  }

  lemma ForwardNeverFails(op: Op, pick: Name, discard: bool)
    requires op.stage != Failed
    ensures Forward(op, pick, discard).stage != Failed
  {
  }

  /** A tick whose call failed: the rows stay, the shard may have changed. */
  lemma FailedCallKeeps(w: World, op: Op, pick: Name, took: bool, op': Op)
    requires OpFleetOk(w, op) && op.stage != Failed && op'.stage != Failed && op'.participants == op.participants && op'.work == op.work
    requires EarlyOk(op')
    ensures OpFleetOk(Called(w, CallOf(op, pick), pick, false, took), op')
  {
    CallKeepsPages(w, CallOf(op, pick), pick, false, took);
    forall p | p in op'.participants ensures PartIn(Called(w, CallOf(op, pick), pick, false, took), op', p) {
      assert PartIn(w, op, p);
      FailedPart(w, op, pick, took, op', p);
    }
  }

  lemma FailedPart(w: World, op: Op, pick: Name, took: bool, op': Op, p: Name)
    requires p in op.participants && PartIn(w, op, p) && op.stage != Failed && op'.stage != Failed && op'.participants == op.participants
    ensures PartIn(Called(w, CallOf(op, pick), pick, false, took), op', p)
  {
    if p != pick { OthersStay(w, CallOf(op, pick), pick, false, took, p); } else { PickStays(w, op, pick, took, op'); }
  }

  lemma StaleKeeps(w: World, op: Op)
    requires OpFleetOk(w, op) && OpOk(op) && BeforeRestore(op.stage)
    ensures OpFleetOk(Freed(w, op), op.(stage := Failed))
  {
    forall p | p in op.participants ensures PartIn(Freed(w, op), op.(stage := Failed), p) { assert PartIn(w, op, p); }
  }

  /** Rows that stay, on a world whose shards stay. */
  lemma RowsStay(w: World, op: Op, w': World, op': Op)
    requires OpFleetOk(w, op) && op'.participants == op.participants && (op.stage == Failed <==> op'.stage == Failed) && EarlyOk(op')
    requires w'.shards == w.shards && w'.undoOf == w.undoOf && w'.undone == w.undone && w'.pages == w.pages
    requires op.work.Keys <= op'.work.Keys
    requires forall c | c in op'.work :: if c in op.work then op'.work[c] == op.work[c] else op'.work[c] == PendingLoss
    ensures OpFleetOk(w', op')
  {
    forall p | p in op'.participants ensures PartIn(w', op', p) { assert PartIn(w, op, p); }
  }

  /** Starting a rollback: what was staged is pending, what was not is not needed. */
  lemma RollbackStarts(w: World, op: Op, w': World)
    requires OpFleetOk(w, op) && CanRollBack(op) && op.stage != Failed && w'.shards == w.shards && w'.undoOf == w.undoOf && w'.undone == w.undone && w'.pages == w.pages
    ensures OpFleetOk(w', RolledBackFrom(op))
  {
    var op' := RolledBackFrom(op);
    assert EarlyOk(op') && LossOk(op', w'.pages);
    forall p | p in op'.participants ensures PartIn(w', op', p) {
      assert PartIn(w, op, p);
      RollbackPart(op.participants[p], op'.participants[p], ShardOf(w, p), UndoOf(w, p), p in w.undone);
    }
  }

  lemma RollbackPart(q: Participant, q': Participant, sh: Shard, undo: Option<Content>, undone: bool)
    requires PartOk(q, sh, undo, undone, false)
    requires q' == if q.status == RollbackReleased then q else q.(status := if q.undo then RollbackPending else RollbackNotNeeded)
    ensures PartOk(q', sh, undo, undone, false)
  {
  }

  /** The watched operation after any other event. */
  lemma OtherEventKeeps(id: RestoreId, w: World, e: Event)
    requires FleetOk(id, w) && id in w.s.ops && !(e.Advance? && w.s.gate.active == Some(id))
    ensures FleetOk(id, w.(s := Next(w.s, e)))
  {
    var s, op := w.s, w.s.ops[id];
    var w' := w.(s := Next(s, e));
    NextKeeps(s, e);
    assert OpOk(op) && GateOk(s, id);
    if e.Execute? { ExecutedRows(id, w, e); }
    else if e.Preview? || e.Forget? { NoOpChanges(s, e, id); RowsStay(w, op, w', op); }
    else if s.gate.active != Some(id) { OthersAreUntouched(s, e, id); RowsStay(w, op, w', op); }
    else if e.Register? { RegisteredRows(w, op, w', e); }
    else { RepairedRows(id, w, e); }
  }

  lemma ExecutedRows(id: RestoreId, w: World, e: Event)
    requires FleetOk(id, w) && id in w.s.ops && e.Execute?
    ensures id in Next(w.s, e).ops && OpFleetOk(w.(s := Next(w.s, e)), Next(w.s, e).ops[id])
  {
    var op := w.s.ops[id];
    RowsStay(w, op, w.(s := Next(w.s, e)), Next(w.s, e).ops[id]);
  }

  lemma RegisteredRows(w: World, op: Op, w': World, e: Event)
    requires e.Register? && Gated(w.s) == Some(op) && OpFleetOk(w, op) && OpOk(op) && IsFenced(op.stage) && w' == w.(s := Next(w.s, e))
    ensures Gated(w'.s).Some? && OpFleetOk(w', Gated(w'.s).value)
  {
    var op' := Inventoried(op, e.coordinator);
    InventoriedIsOk(op, e.coordinator);
    RowsStay(w, op, w', op');
    RowsStay(w, op, w', op);
  }

  lemma RepairedRows(id: RestoreId, w: World, e: Event)
    requires FleetOk(id, w) && id in w.s.ops && w.s.gate.active == Some(id) && (e.Resume? || e.Rollback?)
    ensures id in Next(w.s, e).ops && OpFleetOk(w.(s := Next(w.s, e)), Next(w.s, e).ops[id])
  {
    var s, op := w.s, w.s.ops[id];
    var w' := w.(s := Next(s, e));
    assert OpOk(op) && GateOk(s, id);
    RepairStores(s, id, op, e);
    if w'.s.ops[id] == RolledBackFrom(op) && CanRollBack(op) { RollbackStarts(w, op, w'); }
    else { RowsStay(w, op, w', w'.s.ops[id]); }
  }

  lemma RepairStores(s: Sys, id: RestoreId, op: Op, e: Event)
    requires s.gate.active == Some(id) && id in s.ops && s.ops[id] == op && (e.Resume? || e.Rollback?)
    ensures id in Next(s, e).ops
    ensures var op' := Next(s, e).ops[id]; op' == op || (op.stage == ManualRepair && op' == Resumed(op)) || (CanRollBack(op) && op' == RolledBackFrom(op))
  {
  }

  /** The row that a tick stores. */
  function TickedRow(op: Op, e: Event): Op
    requires e.Advance?
  {
    match e.answer
    case Positive => Forward(op, e.pick, e.discard)
    case Again => op
    case Park => Parked(op)
    case Stale => if BeforeRestore(op.stage) then op.(stage := Failed) else op
  }

  lemma TickStores(s: Sys, id: RestoreId, op: Op, e: Event)
    requires s.gate.active == Some(id) && id in s.ops && s.ops[id] == op && e.Advance?
    ensures id in Next(s, e).ops && Next(s, e).ops[id] == TickedRow(op, e)
  {
  }

  lemma GoodTickIsOk(w: World, op: Op, e: Event, took: bool, page: LossPage)
    requires e.Advance? && e.answer.Positive? && MayAnswer(w, op, e, page) && OpFleetOk(w, op) && OpOk(op) && op.stage != Failed
    ensures OpFleetOk(TickedWorld(w, op, e, took, page), TickedRow(op, e))
  {
    PositiveKeeps(w, op, e.pick, took, page);
    var w' := Called(w, CallOf(op, e.pick), e.pick, true, took);
    assert TickedWorld(w, op, e, took, page) == w'.(pages := if SettlesLoss(op, e.pick) then w.pages[e.pick := page] else w.pages);
    assert TickedRow(op, e) == Forward(op, e.pick, NeedsDiscard(page));
  }

  lemma FailedTickIsOk(w: World, op: Op, e: Event, took: bool, page: LossPage)
    requires e.Advance? && (e.answer.Again? || e.answer.Park?) && OpFleetOk(w, op) && OpOk(op) && op.stage != Failed
    ensures OpFleetOk(TickedWorld(w, op, e, took, page), TickedRow(op, e))
  {
    ParkedIsEarly(op);
    CallKeepsPages(w, CallOf(op, e.pick), e.pick, false, took);
    FailedCallKeeps(w, op, e.pick, took, TickedRow(op, e));
  }

  lemma ParkedIsEarly(op: Op)
    requires OpOk(op) && EarlyOk(op) && op.stage != Failed
    ensures EarlyOk(Parked(op)) && Parked(op).stage != Failed && Parked(op).participants == op.participants && Parked(op).work == op.work
  {
  }

  lemma CallKeepsPages(w: World, call: Call, pick: Name, positive: bool, took: bool)
    ensures var w' := Called(w, call, pick, positive, took); w'.pages == w.pages && w'.(pages := w.pages) == w'
  {
  }

  lemma TickedRowIsOk(w: World, op: Op, e: Event, took: bool, page: LossPage)
    requires e.Advance? && MayAnswer(w, op, e, page) && OpFleetOk(w, op) && OpOk(op) && op.stage != Failed
    ensures OpFleetOk(TickedWorld(w, op, e, took, page), TickedRow(op, e))
  {
    if e.answer.Positive? { GoodTickIsOk(w, op, e, took, page); }
    else if e.answer.Stale? { if BeforeRestore(op.stage) { StaleKeeps(w, op); } }
    else { FailedTickIsOk(w, op, e, took, page); }
  }

  lemma FleetIgnoresSys(w: World, op: Op, s: Sys)
    requires OpFleetOk(w, op)
    ensures OpFleetOk(w.(s := s), op)
  {
    forall p | p in op.participants ensures PartIn(w.(s := s), op, p) { assert PartIn(w, op, p); }
  }

  lemma TickKeeps(id: RestoreId, w: World, e: Event, took: bool, page: LossPage)
    requires FleetOk(id, w) && id in w.s.ops && e.Advance? && w.s.gate.active == Some(id)
    ensures FleetOk(id, Ticked(id, w, e, took, page))
  {
    var op := w.s.ops[id];
    assert OpOk(op) && GateOk(w.s, id);
    NextKeeps(w.s, e);
    TickStores(w.s, id, op, e);
    if MayAnswer(w, op, e, page) {
      TickedRowIsOk(w, op, e, took, page);
      FleetIgnoresSys(TickedWorld(w, op, e, took, page), TickedRow(op, e), Next(w.s, e));
    }
  }

  lemma RestartKeeps(id: RestoreId, w: World, p: Name)
    requires FleetOk(id, w)
    ensures FleetOk(id, NextWorld(id, w, Happening.Restart(p)))
  {
    var w' := NextWorld(id, w, Happening.Restart(p));
    if id in w.s.ops {
      var op := w.s.ops[id];
      forall q | q in op.participants ensures PartIn(w', op, q) { assert PartIn(w, op, q); }
    }
  }

  /** The watched operation appears with its preview. */
  lemma AppearsFresh(id: RestoreId, w: World, e: Event)
    requires FleetOk(id, w) && id !in w.s.ops
    ensures FleetOk(id, w.(s := Next(w.s, e)))
  {
    NextKeeps(w.s, e);
    OnlyPreviewsAppear(w.s, e, id);
  }

  lemma StepKeeps(id: RestoreId, w: World, h: Happening)
    requires FleetOk(id, w)
    ensures FleetOk(id, NextWorld(id, w, h))
  {
    match h
    case Restart(p) => RestartKeeps(id, w, p);
    case Request(e, took, page) =>
      if id !in w.s.ops { AppearsFresh(id, w, e); }
      else if e.Advance? && w.s.gate.active == Some(id) { TickKeeps(id, w, e, took, page); }
      else { OtherEventKeeps(id, w, e); }
  }

  lemma {:induction false} AfterKeeps(id: RestoreId, w: World, hs: seq<Happening>)
    requires FleetOk(id, w)
    ensures FleetOk(id, After(id, w, hs))
  {
    if hs != [] {
      AfterKeeps(id, w, hs[..|hs| - 1]);
      StepKeeps(id, After(id, w, hs[..|hs| - 1]), hs[|hs| - 1]);
    }
  }

  // ---- a restore that completes, or fails early ----

  lemma BeginIsOk(id: RestoreId)
    ensures FleetOk(id, Begin)
  {
  }

  /** Complete means restored: every shard holds the cutoff's content, nothing stays armed and
      nothing fenced; and exactly the coordinators that reported a loss were discarded. */
  lemma {:induction false} CompleteIsRestored(id: RestoreId, hs: seq<Happening>)
    ensures var w := After(id, Begin, hs);
      id in w.s.ops && w.s.ops[id].stage == Complete ==>
        && (forall p | p in w.s.ops[id].participants :: ShardOf(w, p) == Shard(Target, None, false))
        && (forall c | c in w.s.ops[id].work ::
              c in w.pages && (w.s.ops[id].work[c] == Discarded <==> w.pages[c].entries > 0 || w.pages[c].requiresDiscard))
  {
    BeginIsOk(id);
    AfterKeeps(id, Begin, hs);
    var w := After(id, Begin, hs);
    if id in w.s.ops && w.s.ops[id].stage == Complete {
      var op := w.s.ops[id];
      assert OpOk(op);
      forall p | p in op.participants ensures ShardOf(w, p) == Shard(Target, None, false) { assert PartIn(w, op, p); }
    }
  }

  /** A restore that is rejected before restoring has touched no shard. */
  lemma {:induction false} FailedIsUntouched(id: RestoreId, hs: seq<Happening>)
    ensures var w := After(id, Begin, hs);
      id in w.s.ops && w.s.ops[id].stage == Failed ==> forall p | p in w.s.ops[id].participants :: ShardOf(w, p) == Untouched
  {
    BeginIsOk(id);
    AfterKeeps(id, Begin, hs);
    var w := After(id, Begin, hs);
    if id in w.s.ops && w.s.ops[id].stage == Failed {
      var op := w.s.ops[id];
      forall p | p in op.participants ensures ShardOf(w, p) == Untouched { assert PartIn(w, op, p); RankIs(op.participants[p].status); }
    }
  }

  // ---- a restore that is rolled back ----

  predicate RollingBack(op: Op) { IsRollback(Effective(op)) || op.stage == RolledBack }

  /** Undoing this shard brings back what it held: the stored bookmark is one of that, or
      nothing was ever armed. */
  predicate PartSound(q: Participant, sh: Shard, undo: Option<Content>) { if q.undo then undo == Some(Original) else Final(sh) == Original }

  predicate SoundAt(w: World, op: Op, p: Name)
    requires p in op.participants
  {
    PartSound(op.participants[p], ShardOf(w, p), UndoOf(w, p))
  }

  ghost predicate Sound(w: World, op: Op) { forall p | p in op.participants :: SoundAt(w, op, p) }

  /** In a rollback no call changes what matters. */
  lemma CallKeepsSound(w: World, op: Op, pick: Name, positive: bool, took: bool, p: Name)
    requires p in op.participants && PartIn(w, op, p) && (IsRollback(op.stage) || op.stage == ManualRepair)
    ensures var w' := Called(w, CallOf(op, pick), pick, positive, took);
      PartSound(op.participants[p], ShardOf(w', p), UndoOf(w', p)) == SoundAt(w, op, p)
  {
    if p != pick { OthersStay(w, CallOf(op, pick), pick, positive, took, p); }
  }

  /** Rows with the same undo flags, and shards that are as sound. */
  lemma SoundStays(w: World, op: Op, w': World, op': Op)
    requires op'.participants.Keys == op.participants.Keys
    requires forall p | p in op.participants :: op'.participants[p].undo == op.participants[p].undo
    requires forall p | p in op.participants :: PartSound(op.participants[p], ShardOf(w', p), UndoOf(w', p)) == SoundAt(w, op, p)
    ensures Sound(w', op') == Sound(w, op)
  {
    forall p | p in op.participants ensures SoundAt(w', op', p) == SoundAt(w, op, p) {}
    if Sound(w', op') { forall p | p in op.participants ensures SoundAt(w, op, p) { assert SoundAt(w', op', p); } }
    if Sound(w, op) { forall p | p in op'.participants ensures SoundAt(w', op', p) { assert SoundAt(w, op, p); } }
  }

  lemma ForwardKeepsUndo(op: Op, pick: Name, discard: bool)
    requires IsRollback(op.stage)
    ensures var op' := Forward(op, pick, discard); op'.participants.Keys == op.participants.Keys && RollingBack(op') && op'.stage != ManualRepair
    ensures forall p | p in op.participants :: Forward(op, pick, discard).participants[p].undo == op.participants[p].undo
  {
  }

  lemma TickedRowIsSound(w: World, op: Op, e: Event, took: bool, page: LossPage, s: Sys)
    requires e.Advance? && MayAnswer(w, op, e, page) && OpFleetOk(w, op) && OpOk(op) && IsFenced(op.stage) && RollingBack(op)
    ensures RollingBack(TickedRow(op, e)) && Sound(TickedWorld(w, op, e, took, page).(s := s), TickedRow(op, e)) == Sound(w, op)
  {
    var w' := TickedWorld(w, op, e, took, page).(s := s);
    TickIsCall(w, op, e, took, page);
    CallsKeepSound(w, op, e.pick, e.answer.Positive?, took, w');
    RowKeepsUndo(op, e);
    SoundStays(w, op, w', TickedRow(op, e));
  }

  lemma TickIsCall(w: World, op: Op, e: Event, took: bool, page: LossPage)
    requires e.Advance? && RollingBack(op) && OpOk(op) && IsFenced(op.stage)
    ensures var w' := TickedWorld(w, op, e, took, page); var c := Called(w, CallOf(op, e.pick), e.pick, e.answer.Positive?, took);
      (w'.shards == w.shards && w'.undoOf == w.undoOf) || (w'.shards == c.shards && w'.undoOf == c.undoOf)
    ensures IsRollback(op.stage) || op.stage == ManualRepair
  {
  }

  lemma TickKeepsSound(id: RestoreId, w: World, e: Event, took: bool, page: LossPage)
    requires FleetOk(id, w) && id in w.s.ops && e.Advance? && w.s.gate.active == Some(id) && RollingBack(w.s.ops[id])
    ensures var w' := Ticked(id, w, e, took, page);
      id in w'.s.ops && RollingBack(w'.s.ops[id]) && Sound(w', w'.s.ops[id]) == Sound(w, w.s.ops[id])
  {
    var op := w.s.ops[id];
    assert OpOk(op) && GateOk(w.s, id);
    TickStores(w.s, id, op, e);
    if MayAnswer(w, op, e, page) { TickedRowIsSound(w, op, e, took, page, Next(w.s, e)); }
  }

  lemma RowKeepsUndo(op: Op, e: Event)
    requires e.Advance? && RollingBack(op) && OpOk(op) && IsFenced(op.stage)
    ensures var op' := TickedRow(op, e); op'.participants.Keys == op.participants.Keys && RollingBack(op')
    ensures forall p | p in op.participants :: TickedRow(op, e).participants[p].undo == op.participants[p].undo
  {
    if IsRollback(op.stage) { ForwardKeepsUndo(op, e.pick, e.discard); }
  }

  lemma CallsKeepSound(w: World, op: Op, pick: Name, positive: bool, took: bool, w': World)
    requires OpFleetOk(w, op) && (IsRollback(op.stage) || op.stage == ManualRepair)
    requires (w'.shards == w.shards && w'.undoOf == w.undoOf) || (var c := Called(w, CallOf(op, pick), pick, positive, took); w'.shards == c.shards && w'.undoOf == c.undoOf)
    ensures forall p | p in op.participants :: PartSound(op.participants[p], ShardOf(w', p), UndoOf(w', p)) == SoundAt(w, op, p)
  {
    forall p | p in op.participants ensures PartSound(op.participants[p], ShardOf(w', p), UndoOf(w', p)) == SoundAt(w, op, p) {
      assert PartIn(w, op, p);
      CallKeepsSound(w, op, pick, positive, took, p);
    }
  }

  lemma OtherKeepsSound(id: RestoreId, w: World, e: Event)
    requires FleetOk(id, w) && id in w.s.ops && !(e.Advance? && w.s.gate.active == Some(id)) && RollingBack(w.s.ops[id])
    ensures var s' := Next(w.s, e);
      id in s'.ops && RollingBack(s'.ops[id]) && s'.ops[id].participants == w.s.ops[id].participants
  {
    var s, op := w.s, w.s.ops[id];
    assert OpOk(op) && GateOk(s, id);
    if e.Preview? || e.Execute? || e.Forget? { StartedStays(s, e, id); }
    else if s.gate.active != Some(id) { OthersAreUntouched(s, e, id); }
    else if e.Register? { RegisterInRollback(s, op, e); }
    else { RepairInRollback(s, op, e); }
  }

  lemma StartedStays(s: Sys, e: Event, id: RestoreId)
    requires id in s.ops && s.ops[id].stage != Previewed && (e.Preview? || e.Execute? || e.Forget?)
    ensures id in Next(s, e).ops && Next(s, e).ops[id] == s.ops[id]
  {
  }

  lemma RegisterInRollback(s: Sys, op: Op, e: Event)
    requires Gated(s) == Some(op) && e.Register? && RollingBack(op) && OpOk(op) && IsFenced(op.stage)
    ensures Gated(Next(s, e)).Some? && RollingBack(Gated(Next(s, e)).value) && Gated(Next(s, e)).value.participants == op.participants
  {
    InventoriedIsOk(op, e.coordinator);
    assert RollingBack(Inventoried(op, e.coordinator));
  }

  lemma RepairInRollback(s: Sys, op: Op, e: Event)
    requires Gated(s) == Some(op) && (e.Resume? || e.Rollback?) && RollingBack(op) && OpOk(op) && IsFenced(op.stage)
    ensures Gated(Next(s, e)).Some? && RollingBack(Gated(Next(s, e)).value) && Gated(Next(s, e)).value.participants == op.participants
  {
    assert RollingBack(Resumed(op));
  }

  lemma StepKeepsSound(id: RestoreId, w: World, h: Happening)
    requires FleetOk(id, w) && id in w.s.ops && RollingBack(w.s.ops[id])
    ensures var w' := NextWorld(id, w, h);
      id in w'.s.ops && RollingBack(w'.s.ops[id]) && Sound(w', w'.s.ops[id]) == Sound(w, w.s.ops[id])
  {
    var op := w.s.ops[id];
    var w' := NextWorld(id, w, h);
    match h
    case Restart(p) => SoundStays(w, op, w', op);
    case Request(e, took, page) =>
      if e.Advance? && w.s.gate.active == Some(id) { TickKeepsSound(id, w, e, took, page); }
      else { OtherKeepsSound(id, w, e); SoundStays(w, op, w', w'.s.ops[id]); }
  }

  lemma {:induction false} AfterKeepsSound(id: RestoreId, w: World, hs: seq<Happening>)
    requires FleetOk(id, w) && id in w.s.ops && RollingBack(w.s.ops[id])
    ensures var w' := After(id, w, hs); id in w'.s.ops && RollingBack(w'.s.ops[id]) && Sound(w', w'.s.ops[id]) == Sound(w, w.s.ops[id])
  {
    if hs != [] {
      var n := |hs| - 1;
      AfterKeepsSound(id, w, hs[..n]);
      AfterKeeps(id, w, hs[..n]);
      StepKeepsSound(id, After(id, w, hs[..n]), hs[n]);
    }
  }

  /** Nothing of this restore is left on any of its shards. */
  ghost predicate Clean(w: World, op: Op) { forall p | p in op.participants :: ShardOf(w, p) == Untouched }

  /** A rollback that has started undoes the restore, whatever fails in it and however long
      it takes, if and only if at its start every stored undo bookmark was one of the
      original content, and every shard without a stored one had nothing armed. And it
      calls for an undo exactly where one was stored. */
  lemma {:induction false} RolledBackIffSound(id: RestoreId, w: World, hs: seq<Happening>)
    requires FleetOk(id, w) && id in w.s.ops && RollingBack(w.s.ops[id])
    requires id in After(id, w, hs).s.ops && After(id, w, hs).s.ops[id].stage == RolledBack
    ensures var w' := After(id, w, hs); Clean(w', w'.s.ops[id]) <==> Sound(w, w.s.ops[id])
    ensures var w' := After(id, w, hs); forall p | p in w'.s.ops[id].participants :: p in w'.undone <==> w'.s.ops[id].participants[p].undo
  {
    AfterKeeps(id, w, hs);
    AfterKeepsSound(id, w, hs);
    var w' := After(id, w, hs);
    var op := w'.s.ops[id];
    assert OpOk(op);
    forall p | p in op.participants ensures ShardOf(w', p) == Untouched <==> SoundAt(w', op, p) { assert PartIn(w', op, p); }
    forall p | p in op.participants ensures p in w'.undone <==> op.participants[p].undo { assert PartIn(w', op, p); }
    if Sound(w', op) { forall p | p in op.participants ensures ShardOf(w', p) == Untouched { assert SoundAt(w', op, p); } }
    if Clean(w', op) { forall p | p in op.participants ensures SoundAt(w', op, p) { assert ShardOf(w', p) == Untouched; } }
  }

  // ---- no lost reply, no harm ----

  /** A staging that took effect and whose answer did not arrive. */
  predicate LosesStage(id: RestoreId, w: World, h: Happening) {
    && h.Request? && h.e.Advance? && id in w.s.ops && w.s.gate.active == Some(id)
    && CallOf(w.s.ops[id], h.e.pick) == Stage && h.took && !h.e.answer.Positive?
  }

  predicate NoStageLost(id: RestoreId, hs: seq<Happening>) {
    hs != [] ==> NoStageLost(id, hs[..|hs| - 1]) && !LosesStage(id, After(id, Begin, hs[..|hs| - 1]), hs[|hs| - 1])
  }

  /** A shard without a stored undo is untouched, and stored undos are of the original. */
  predicate Steady(q: Participant, sh: Shard, undo: Option<Content>) {
    if q.undo then undo == Some(Original) else sh.(fenced := false) == Untouched
  }

  predicate SteadyAt(w: World, op: Op, p: Name)
    requires p in op.participants
  {
    Steady(op.participants[p], ShardOf(w, p), UndoOf(w, p))
  }

  ghost predicate AllSteady(id: RestoreId, w: World) { id in w.s.ops ==> forall p | p in w.s.ops[id].participants :: SteadyAt(w, w.s.ops[id], p) }

  lemma CallKeepsSteady(w: World, op: Op, pick: Name, discard: bool, positive: bool, took: bool, p: Name)
    requires p in op.participants && PartIn(w, op, p) && SteadyAt(w, op, p)
    requires CallOf(op, pick) == Stage && took ==> positive
    ensures var w' := Called(w, CallOf(op, pick), pick, positive, took); var op' := if positive then Forward(op, pick, discard) else op;
      p in op'.participants && SteadyAt(w', op', p)
  {
    ForwardTouches(op, pick, discard);
    if p != pick { OthersStay(w, CallOf(op, pick), pick, positive, took, p); }
    else if CallOf(op, pick) == NoCall { QuietForward(op, pick, discard); }
    else { PickKeepsSteady(w, op, pick, discard, positive, took); }
  }

  lemma PickKeepsSteady(w: World, op: Op, pick: Name, discard: bool, positive: bool, took: bool)
    requires pick in op.participants && PartIn(w, op, pick) && SteadyAt(w, op, pick) && CallOf(op, pick) != NoCall
    requires CallOf(op, pick) == Stage && took ==> positive
    ensures var w' := Called(w, CallOf(op, pick), pick, positive, took); var op' := if positive then Forward(op, pick, discard) else op;
      pick in op'.participants && SteadyAt(w', op', pick)
  {
  }

  lemma TickKeepsSteady(id: RestoreId, w: World, e: Event, took: bool, page: LossPage)
    requires FleetOk(id, w) && id in w.s.ops && e.Advance? && w.s.gate.active == Some(id) && AllSteady(id, w)
    requires CallOf(w.s.ops[id], e.pick) == Stage && took ==> e.answer.Positive?
    ensures AllSteady(id, Ticked(id, w, e, took, page))
  {
    var op := w.s.ops[id];
    TickStores(w.s, id, op, e);
    var w' := Ticked(id, w, e, took, page);
    if MayAnswer(w, op, e, page) {
      if e.answer.Stale? { FreeingIsSteady(w, op, w', w'.s.ops[id]); }
      else { CallIsSteady(w, op, e.pick, e.discard, e.answer.Positive?, took, w', w'.s.ops[id]); }
    }
  }

  lemma FreeingIsSteady(w: World, op: Op, w': World, op': Op)
    requires (forall p | p in op.participants :: SteadyAt(w, op, p)) && op'.participants == op.participants
    requires w'.undoOf == w.undoOf && (w'.shards == w.shards || w'.shards == Freed(w, op).shards)
    ensures forall p | p in op'.participants :: SteadyAt(w', op', p)
  {
    forall p | p in op'.participants ensures SteadyAt(w', op', p) { assert SteadyAt(w, op, p); }
  }

  lemma CallIsSteady(w: World, op: Op, pick: Name, discard: bool, positive: bool, took: bool, w': World, op': Op)
    requires OpFleetOk(w, op) && (forall p | p in op.participants :: SteadyAt(w, op, p)) && (CallOf(op, pick) == Stage && took ==> positive)
    requires var called := Called(w, CallOf(op, pick), pick, positive, took); w'.shards == called.shards && w'.undoOf == called.undoOf
    requires op'.participants == (if positive then Forward(op, pick, discard) else op).participants
    ensures forall p | p in op'.participants :: SteadyAt(w', op', p)
  {
    ForwardTouches(op, pick, discard);
    forall p | p in op'.participants ensures SteadyAt(w', op', p) {
      assert SteadyAt(w, op, p) && PartIn(w, op, p);
      CallKeepsSteady(w, op, pick, discard, positive, took, p);
    }
  }

  /** Other events leave shards, and what is stored of their undos. */
  lemma OtherKeepsSteady(id: RestoreId, w: World, e: Event)
    requires FleetOk(id, w) && !(e.Advance? && w.s.gate.active == Some(id)) && AllSteady(id, w)
    ensures AllSteady(id, w.(s := Next(w.s, e)))
  {
    var s := w.s;
    if id !in s.ops { OnlyPreviewsAppear(s, e, id); }
    else {
      assert OpOk(s.ops[id]) && GateOk(s, id);
      if e.Preview? || e.Forget? { NoOpChanges(s, e, id); }
      else if e.Execute? {}
      else if s.gate.active != Some(id) { OthersAreUntouched(s, e, id); }
      else { GatedKeepsUndo(s, s.ops[id], e); }
      forall p | p in Next(s, e).ops[id].participants ensures SteadyAt(w.(s := Next(s, e)), Next(s, e).ops[id], p) { assert SteadyAt(w, s.ops[id], p); }
    }
  }

  lemma GatedKeepsUndo(s: Sys, op: Op, e: Event)
    requires Gated(s) == Some(op) && (e.Register? || e.Resume? || e.Rollback?)
    ensures Gated(s).Some? && s.gate.active.value in Next(s, e).ops
    ensures var op' := Next(s, e).ops[s.gate.active.value];
      op'.participants.Keys == op.participants.Keys && forall p | p in op.participants :: op'.participants[p].undo == op.participants[p].undo
  {
  }

  lemma {:induction false} SteadyUnlessLost(id: RestoreId, hs: seq<Happening>)
    requires NoStageLost(id, hs)
    ensures AllSteady(id, After(id, Begin, hs))
  {
    if hs != [] {
      var n := |hs| - 1;
      var w := After(id, Begin, hs[..n]);
      SteadyUnlessLost(id, hs[..n]);
      BeginIsOk(id);
      AfterKeeps(id, Begin, hs[..n]);
      match hs[n]
      case Restart(p) => RestartKeepsSteady(id, w, p);
      case Request(e, took, page) =>
        if e.Advance? && id in w.s.ops && w.s.gate.active == Some(id) { TickKeepsSteady(id, w, e, took, page); } else { OtherKeepsSteady(id, w, e); }
    }
  }

  lemma RestartKeepsSteady(id: RestoreId, w: World, p: Name)
    requires AllSteady(id, w)
    ensures AllSteady(id, NextWorld(id, w, Happening.Restart(p)))
  {
    if id in w.s.ops {
      var w' := NextWorld(id, w, Happening.Restart(p));
      forall q | q in w.s.ops[id].participants ensures SteadyAt(w', w'.s.ops[id], q) { assert SteadyAt(w, w.s.ops[id], q); }
    }
  }

  /** So without a lost answer to a staging, rolled back means that every shard is as it was
      before the restore, with nothing armed and nothing fenced. */
  lemma {:induction false} RolledBackIsUndone(id: RestoreId, hs: seq<Happening>)
    requires NoStageLost(id, hs)
    ensures var w := After(id, Begin, hs); id in w.s.ops && w.s.ops[id].stage == RolledBack ==> Clean(w, w.s.ops[id])
  {
    SteadyUnlessLost(id, hs);
    BeginIsOk(id);
    AfterKeeps(id, Begin, hs);
    var w := After(id, Begin, hs);
    if id in w.s.ops && w.s.ops[id].stage == RolledBack {
      var op := w.s.ops[id];
      forall p | p in op.participants ensures SoundAt(w, op, p) { assert SteadyAt(w, op, p); }
      RolledBackIffSound(id, w, []);
    }
  }
}
