/** The restore's ticks taken apart at their remote calls. A tick reads, calls, and writes
    when the call returns; registrations, which do not wait in the mutation queue, come in
    between. Every state of such a run is a state of a run of whole ticks. */
module RestoreTicks {
  import opened Basics
  import opened RestoreSpec
  import opened Restore
  import opened RestoreProgress

  /** What a tick will write when its remote calls have returned. `Nothing` is a call whose
      answer is not written, or an error to come. */
  datatype Pending =
    | ToStage(next: Stage)
    | ToStatus(participant: Name, status: Status, arms: bool)
    | ToWork(coordinator: Name, result: WorkStatus)
    | ToRecord(record: Name)
    | ToComplete
    | ToRolledBack
    | ToFailed
    | Nothing

  /** A tick up to its call: the rows after what it writes at once, and what it awaits. */
  datatype Begun = Begun(op: Op, pending: Option<Pending>)

  function Awaits(op: Op, p: Pending): Begun { Begun(op, Some(p)) }
  function MovesOn(op: Op, next: Stage): Begun { Begun(op.(stage := next), None) }

  /** The next participant in this status, its call, its next status; or the next stage. */
  function BeginNext(op: Op, pick: Name, from: Status, to: Status, next: Stage): Begun {
    if !SomeStatus(op, {from}) then MovesOn(op, next)
    else if Is(op, pick, {from}) then Awaits(op, ToStatus(pick, to, false)) else Awaits(op, Nothing)
  }

  function BeginLoss(op: Op, pick: Name, discard: bool): Begun {
    if SomeStatus(op, {PReady}) then (if Is(op, pick, {PReady}) then Awaits(op, ToStatus(pick, LossMaterialized, false)) else Awaits(op, Nothing))
    else if !SomeWork(op, PendingLoss) then MovesOn(op, Restoring)
    else if pick in op.work && op.work[pick] == PendingLoss then Awaits(op, ToWork(pick, if discard then DiscardRequired else Retained))
    else Awaits(op, Nothing)
  }

  /** The request to activate is stored before the call. */
  function BeginRestore(op: Op, pick: Name): Begun {
    if !Unrestored(op) then MovesOn(op, Reconciling)
    else if Is(op, pick, {LossMaterialized}) then Awaits(op, ToStatus(pick, Staged, true))
    else if Is(op, pick, {Staged}) then Awaits(Mark(op, pick, ActivationRequested), Nothing)
    else if Is(op, pick, {ActivationRequested}) then Awaits(op, ToStatus(pick, Restored, false))
    else Awaits(op, Nothing)
  }

  function BeginReconcile(op: Op, pick: Name): Begun {
    if op.pendingRecords == {} then MovesOn(op, Verifying) else Awaits(op, ToRecord(pick))
  }

  function BeginDiscard(op: Op, pick: Name): Begun {
    if !SomeWork(op, DiscardRequired) then MovesOn(op, Releasing)
    else if pick in op.work && op.work[pick] == DiscardRequired then Awaits(op, ToWork(pick, Discarded)) else Awaits(op, Nothing)
  }

  /** completeRestore counts before it releases the catalogs' fences. */
  function BeginRelease(op: Op, pick: Name): Begun {
    if SomeStatus(op, {Verified}) then (if Is(op, pick, {Verified}) then Awaits(op, ToStatus(pick, Released, false)) else Awaits(op, Nothing))
    else if AllDone(op) then Awaits(op, ToComplete) else Awaits(op, Nothing)
  }

  function BeginRollback(op: Op, pick: Name): Begun {
    if !SomeStatus(op, {RollbackPending, RollbackStaged, RollbackActivationRequested}) then MovesOn(op, RollbackReleasing)
    else if Is(op, pick, {RollbackPending}) && op.participants[pick].undo then Awaits(op, ToStatus(pick, RollbackStaged, false))
    else if Is(op, pick, {RollbackStaged}) && op.participants[pick].undo then Awaits(Mark(op, pick, RollbackActivationRequested), Nothing)
    else if Is(op, pick, {RollbackActivationRequested}) && op.participants[pick].undo then Awaits(op, ToStatus(pick, RollbackVerified, false))
    else Awaits(op, Nothing)
  }

  predicate AllRolledBack(op: Op) { forall p | p in op.participants :: op.participants[p].status == RollbackReleased }

  function BeginRollbackRelease(op: Op, pick: Name): Begun {
    if SomeStatus(op, {RollbackVerified, RollbackNotNeeded}) then
      (if Is(op, pick, {RollbackVerified, RollbackNotNeeded}) then Awaits(op, ToStatus(pick, RollbackReleased, false)) else Awaits(op, Nothing))
    else if AllRolledBack(op) then Awaits(op, ToRolledBack) else Awaits(op, Nothing)
  }

  function Begin(op: Op, pick: Name, discard: bool): Begun {
    match op.stage
    case FencingCatalogs => Awaits(op, ToStage(FencingParticipants))
    case FencingParticipants => BeginNext(op, pick, PPreviewed, PFenced, Revalidating)
    case Revalidating => BeginNext(op, pick, PFenced, PReady, MaterializingLoss)
    case MaterializingLoss => BeginLoss(op, pick, discard)
    case Restoring => BeginRestore(op, pick)
    case Reconciling => BeginReconcile(op, pick)
    case Verifying => BeginNext(op, pick, Restored, Verified, Discarding)
    case Discarding => BeginDiscard(op, pick)
    case Releasing => BeginRelease(op, pick)
    case RollbackParticipants => BeginRollback(op, pick)
    case RollbackReleasing => BeginRollbackRelease(op, pick)
    case _ => Begun(op, None)
  }

  /** The writes after the calls, on the rows as they are by then. Completion looks at the
      stage and counts again. */
  function Finish(op: Op, p: Pending): Op {
    match p
    case ToStage(next) => op.(stage := next)
    case ToStatus(q, status, arms) =>
      if q in op.participants then op.(participants := op.participants[q := Participant(status, arms || op.participants[q].undo)]) else op
    case ToWork(c, result) => if c in op.work then op.(work := op.work[c := result]) else op
    case ToRecord(r) => op.(pendingRecords := op.pendingRecords - {r})
    case ToComplete => if op.stage == Releasing && AllDone(op) then op.(stage := Complete) else op
    case ToRolledBack => op.(stage := RolledBack)
    case ToFailed => op.(stage := Failed)
    case Nothing => op
  }

  function Whole(b: Begun): Op { if b.pending.Some? then Finish(b.op, b.pending.value) else b.op }

  lemma BeginThenFinishLoss(op: Op, pick: Name, discard: bool)
    ensures Whole(BeginLoss(op, pick, discard)) == StepLoss(op, pick, discard)
    ensures Whole(BeginRestore(op, pick)) == StepRestore(op, pick)
  {
  }

  lemma BeginThenFinishRelease(op: Op, pick: Name)
    requires op.stage == Releasing
    ensures Whole(BeginRelease(op, pick)) == StepRelease(op, pick)
  {
  }

  lemma BeginThenFinishRollback(op: Op, pick: Name)
    ensures Whole(BeginRollback(op, pick)) == StepRollback(op, pick) && Whole(BeginRollbackRelease(op, pick)) == StepRollbackRelease(op, pick)
  {
  }

  /** With nothing in between, beginning and finishing is the whole step. */
  lemma BeginThenFinish(op: Op, pick: Name, discard: bool)
    ensures Whole(Begin(op, pick, discard)) == Forward(op, pick, discard)
  {
    match op.stage
    case MaterializingLoss => BeginThenFinishLoss(op, pick, discard);
    case Restoring => BeginThenFinishLoss(op, pick, discard);
    case Releasing => BeginThenFinishRelease(op, pick);
    case RollbackParticipants => BeginThenFinishRollback(op, pick);
    case RollbackReleasing => BeginThenFinishRollback(op, pick);
    case _ =>
  }

  // ---- registrations and the awaited writes ----

  /** What is still so of the rows while this is awaited. */
  predicate PendingOk(op: Op, p: Pending) {
    match p
    case ToStage(next) => op.stage == FencingCatalogs && next == FencingParticipants
    case ToStatus(q, _, _) => q in op.participants
    case ToWork(c, result) => c in op.work && result in {DiscardRequired, Retained, Discarded}
    case ToRecord(_) => true
    case ToComplete => op.stage == Releasing && AllDone(op)
    case ToRolledBack => op.stage == RollbackReleasing && AllRolledBack(op)
    case ToFailed => BeforeRestore(op.stage)
    case Nothing => true
  }

  /** Ends the operation, and with it the gate. */
  predicate Ends(p: Pending) { p.ToComplete? || p.ToRolledBack? || p.ToFailed? }

  lemma BegunIsOk(op: Op, pick: Name, discard: bool)
    ensures var b := Begin(op, pick, discard); b.pending.Some? ==> PendingOk(b.op, b.pending.value) && !b.pending.value.ToFailed?
  {
  }

  /** A registration during a call, and the call's write: whichever comes first, the rows
      end the same. */
  lemma RegistrationCommutes(op: Op, p: Pending, c: Name)
    requires PendingOk(op, p) && !Ends(p)
    ensures Finish(Inventoried(op, c), p) == Inventoried(Finish(op, p), c)
    ensures PendingOk(Inventoried(op, c), p)
    ensures RegistrationRefused(Finish(op, p), true) <==> RegistrationRefused(op, true)
    ensures IsFenced(op.stage) ==> IsFenced(Finish(op, p).stage)
  {
    if p.ToWork? && c !in op.work { assert op.work[c := PendingLoss][p.coordinator := p.result] == op.work[p.coordinator := p.result][c := PendingLoss]; }
  }

  /** While an ending is awaited a registration is refused, or leaves what ends true. */
  lemma RegistrationLeavesEnding(op: Op, p: Pending, c: Name)
    requires PendingOk(op, p) && Ends(p) && !RegistrationRefused(op, true)
    ensures !p.ToComplete? && PendingOk(Inventoried(op, c), p) && Inventoried(op, c).stage == op.stage
  {
  }

  // ---- runs ----

  /** The state and the tick that is under way. */
  datatype Split = Split(s: Sys, tick: Option<Pending>)

  datatype Part =
    | BeginTick(pick: Name, discard: bool)
    | Reject
    | FinishTick(answer: Answer)
    | Crash
    | Request(e: Event)

  /** Registrations and deletions from the registry do not wait for the tick. */
  predicate Unqueued(e: Event) { e.Register? || e.Forget? }

  /** Store the finished operation. */
  function FinishStep(s: Sys, p: Pending): Sys {
    if Gated(s).Some? then Store(s, Finish(Gated(s).value, p)) else s
  }

  /** The end of a tick's calls. A rejection before anything was restored goes on to
      release the fences, which are calls again. */
  function Ended(x: Split, answer: Answer): Split
    requires x.tick.Some?
  {
    if Gated(x.s).None? then Split(x.s, None)
    else match answer
      case Positive => Split(FinishStep(x.s, x.tick.value), None)
      case Again => Split(x.s, None)
      case Park => Split(Store(x.s, Parked(Gated(x.s).value)), None)
      case Stale => if BeforeRestore(Gated(x.s).value.stage) then Split(x.s, Some(ToFailed)) else Split(x.s, None)
  }

  function Next(x: Split, part: Part): Split {
    match part
    case BeginTick(pick, discard) =>
      if x.tick.Some? || Gated(x.s).None? then x
      else var b := Begin(Gated(x.s).value, pick, discard); Split(Store(x.s, b.op), b.pending)
    case Reject =>
      if x.tick.None? && Gated(x.s).Some? && BeforeRestore(Gated(x.s).value.stage) then Split(x.s, Some(ToFailed)) else x
    case FinishTick(answer) => if x.tick.Some? then Ended(x, answer) else x
    case Crash => Split(x.s, None)
    case Request(e) => if e.Advance? || (x.tick.Some? && !Unqueued(e)) then x else Split(RestoreSpec.Next(x.s, e), x.tick)
  }

  const Initial := Split(Start, None)

  function From(x: Split, run: seq<Part>): Split {
    if run == [] then x else Next(From(x, run[..|run| - 1]), run[|run| - 1])
  }

  // ---- every state of a split run is a state of a whole run ----

  ghost predicate Reached(s: Sys) { exists run: seq<Event> :: RestoreSpec.From(Start, run) == s }

  lemma {:induction false} ReachedNext(s: Sys, e: Event)
    requires Reached(s)
    ensures Reached(RestoreSpec.Next(s, e))
  {
    var run: seq<Event> :| RestoreSpec.From(Start, run) == s;
    FromStep(Start, run, e);
    assert RestoreSpec.From(Start, run + [e]) == RestoreSpec.Next(s, e);
  }

  lemma ReachedOk(s: Sys)
    requires Reached(s)
    ensures Inv(s)
  {
    var run: seq<Event> :| RestoreSpec.From(Start, run) == s;
    RunKeeps(Start, run);
  }

  /** And so would be the state if the calls under way returned now. */
  ghost predicate Faithful(x: Split) {
    && Reached(x.s)
    && (x.tick.Some? ==> Gated(x.s).Some? && PendingOk(Gated(x.s).value, x.tick.value) && Reached(FinishStep(x.s, x.tick.value)))
  }

  /** The gated operation is in a fenced stage. */
  lemma GatedIsFenced(s: Sys)
    requires Reached(s) && Gated(s).Some?
    ensures IsFenced(Gated(s).value.stage)
  {
    ReachedOk(s);
    assert GateOk(s, s.gate.active.value);
  }

  lemma StoreSame(s: Sys)
    requires Gated(s).Some? && IsFenced(Gated(s).value.stage)
    ensures Store(s, Gated(s).value) == s
  {
    assert s.ops[s.gate.active.value := Gated(s).value] == s.ops;
  }

  /** An ending that returns now is one whole step from here. */
  lemma EndingIsWhole(s: Sys, p: Pending)
    requires Reached(s) && Gated(s).Some? && PendingOk(Gated(s).value, p) && Ends(p)
    ensures Reached(FinishStep(s, p))
  {
    var op := Gated(s).value;
    match p
    case ToComplete =>
      assert Forward(op, "", false) == Finish(op, p);
      ReachedNext(s, Advance(Positive, "", false));
    case ToRolledBack =>
      assert Forward(op, "", false) == Finish(op, p);
      ReachedNext(s, Advance(Positive, "", false));
    case ToFailed => ReachedNext(s, Advance(Stale, "", false));
  }

  lemma BeginKeeps(x: Split, pick: Name, discard: bool)
    requires Faithful(x) && x.tick.None? && Gated(x.s).Some?
    ensures Faithful(Next(x, BeginTick(pick, discard)))
  {
    var op := Gated(x.s).value;
    var b := Begin(op, pick, discard);
    GatedIsFenced(x.s);
    BeginThenFinish(op, pick, discard);
    BegunIsOk(op, pick, discard);
    ReachedNext(x.s, Advance(Positive, pick, discard));
    BegunStage(op, pick, discard);
    if b.pending.Some? {
      StoreTwice(x.s, b.op, Finish(b.op, b.pending.value));
      if b.pending.value.Nothing? { assert Finish(b.op, b.pending.value) == b.op; }
      else { StoreSame(x.s); }
    }
  }

  /** Before its calls a tick writes a stage only if it makes none, and a status only if it
      writes nothing after them. */
  lemma BegunStage(op: Op, pick: Name, discard: bool)
    ensures var b := Begin(op, pick, discard);
      b.pending.Some? ==> b.op.stage == op.stage && (b.pending.value.Nothing? || b.op == op)
  {
  }

  lemma StoreTwice(s: Sys, a: Op, b: Op)
    requires Gated(s).Some? && IsFenced(a.stage)
    ensures Gated(Store(s, a)) == Some(a) && Store(Store(s, a), b) == Store(s, b)
  {
    var id := s.gate.active.value;
    assert s.ops[id := a][id := b] == s.ops[id := b];
  }

  lemma RegisterCommutes(s: Sys, p: Pending, c: Name)
    requires Gated(s).Some? && IsFenced(Gated(s).value.stage) && PendingOk(Gated(s).value, p) && !Ends(p) && !RegistrationRefused(Gated(s).value, true)
    ensures FinishStep(RegisterStep(s, c, true), p) == RegisterStep(FinishStep(s, p), c, true)
    ensures Gated(RegisterStep(s, c, true)) == Some(Inventoried(Gated(s).value, c))
  {
    var op, id := Gated(s).value, s.gate.active.value;
    RegistrationCommutes(op, p, c);
    assert s.ops[id := Inventoried(op, c)][id := Finish(Inventoried(op, c), p)] == s.ops[id := Finish(Inventoried(op, c), p)];
    assert s.ops[id := Finish(op, p)][id := Inventoried(Finish(op, p), c)] == s.ops[id := Inventoried(Finish(op, p), c)];
  }

  lemma RegisterEndingKeeps(s: Sys, p: Pending, c: Name)
    requires Gated(s).Some? && IsFenced(Gated(s).value.stage) && PendingOk(Gated(s).value, p) && Ends(p) && !RegistrationRefused(Gated(s).value, true)
    ensures Gated(RegisterStep(s, c, true)).Some? && PendingOk(Gated(RegisterStep(s, c, true)).value, p)
  {
    RegistrationLeavesEnding(Gated(s).value, p, c);
  }

  lemma RegisterKeepsFaithful(x: Split, c: Name, existing: bool)
    requires Faithful(x) && x.tick.Some?
    ensures Faithful(Next(x, Request(Register(c, existing))))
  {
    var op, p := Gated(x.s).value, x.tick.value;
    GatedIsFenced(x.s);
    if !RegistrationRefused(op, existing) {
      ReachedNext(x.s, Register(c, true));
      if Ends(p) {
        RegisterEndingKeeps(x.s, p, c);
        EndingIsWhole(RegisterStep(x.s, c, true), p);
      } else {
        RegisterCommutes(x.s, p, c);
        RegistrationCommutes(op, p, c);
        ReachedNext(FinishStep(x.s, p), Register(c, true));
      }
    }
  }

  lemma ForgetKeepsFaithful(x: Split, c: Name)
    requires Faithful(x) && x.tick.Some?
    ensures Faithful(Next(x, Request(Forget(c))))
  {
    ReachedNext(x.s, Forget(c));
    ReachedNext(FinishStep(x.s, x.tick.value), Forget(c));
    assert FinishStep(RestoreSpec.Next(x.s, Forget(c)), x.tick.value) == RestoreSpec.Next(FinishStep(x.s, x.tick.value), Forget(c));
  }

  lemma EndKeeps(x: Split, answer: Answer)
    requires Faithful(x) && x.tick.Some?
    ensures Faithful(Ended(x, answer))
  {
    match answer
    case Positive =>
    case Again =>
    case Park => ReachedNext(x.s, Advance(Park, "", false));
    case Stale => if BeforeRestore(Gated(x.s).value.stage) { EndingIsWhole(x.s, ToFailed); }
  }

  lemma NextKeepsFaithful(x: Split, part: Part)
    requires Faithful(x)
    ensures Faithful(Next(x, part))
  {
    match part
    case BeginTick(pick, discard) => if x.tick.None? && Gated(x.s).Some? { BeginKeeps(x, pick, discard); }
    case Reject => if x.tick.None? && Gated(x.s).Some? && BeforeRestore(Gated(x.s).value.stage) { EndingIsWhole(x.s, ToFailed); }
    case FinishTick(answer) => if x.tick.Some? { EndKeeps(x, answer); }
    case Crash =>
    case Request(e) =>
      if x.tick.None? { if !e.Advance? { ReachedNext(x.s, e); } }
      else if e.Register? { RegisterKeepsFaithful(x, e.coordinator, e.existing); }
      else if e.Forget? { ForgetKeepsFaithful(x, e.coordinator); }
  }

  lemma {:induction false} SplitRunsAreWhole(run: seq<Part>)
    ensures Faithful(From(Initial, run))
  {
    if run == [] {
      var none: seq<Event> := [];
      assert RestoreSpec.From(Start, none) == Start;
    } else {
      SplitRunsAreWhole(run[..|run| - 1]);
      NextKeepsFaithful(From(Initial, run[..|run| - 1]), run[|run| - 1]);
    }
  }

  // ---- so everything that holds of whole runs holds of these ----

  /** Complete means complete, whatever was registered during the calls of any tick: the
      released fences, the counts and the counts again. */
  lemma {:induction false} CompleteDespiteRegistrations(run: seq<Part>, id: RestoreId, c: Name)
    ensures var s := From(Initial, run).s;
      id in s.ops && s.ops[id].stage == Complete ==>
        && (forall p | p in s.ops[id].participants :: s.ops[id].participants[p].status == Released)
        && s.ops[id].pendingRecords == {}
        && (id in s.inventory && c in s.inventory[id] ==> c in s.ops[id].work && s.ops[id].work[c] in {Retained, Discarded})
  {
    SplitRunsAreWhole(run);
    var whole: seq<Event> :| RestoreSpec.From(Start, whole) == From(Initial, run).s;
    CompleteIsComplete(whole, id, c);
  }

  /** Also while calls are under way: one fenced operation, which the gate names. */
  lemma {:induction false} GateDuringCalls(run: seq<Part>, id: RestoreId, other: RestoreId)
    ensures var s := From(Initial, run).s;
      && (id in s.ops ==> (IsFenced(s.ops[id].stage) <==> s.gate.active == Some(id)))
      && (s.gate.active == Some(id) ==> id in s.ops && s.ops[id].generation == Some(s.gate.generation))
      && (id in s.ops && other in s.ops && IsFenced(s.ops[id].stage) && IsFenced(s.ops[other].stage) ==> id == other)
  {
    SplitRunsAreWhole(run);
    var whole: seq<Event> :| RestoreSpec.From(Start, whole) == From(Initial, run).s;
    GateNamesTheOnlyRestore(whole, id, other);
  }

  lemma {:induction false} RolledBackDespiteRegistrations(run: seq<Part>, id: RestoreId)
    ensures var s := From(Initial, run).s;
      id in s.ops && s.ops[id].stage == RolledBack ==>
        (forall p | p in s.ops[id].participants :: s.ops[id].participants[p].status == RollbackReleased) && !SomeWork(s.ops[id], Discarded)
  {
    SplitRunsAreWhole(run);
    var whole: seq<Event> :| RestoreSpec.From(Start, whole) == From(Initial, run).s;
    RolledBackIsClean(whole, id);
  }

  // ---- progress, with registrations inside the ticks ----

  /** One operation with the tick under way, its ticks answered well. */
  datatype Under = Under(op: Op, tick: Option<Pending>)

  datatype Piece = Beginning(pick: Name, discard: bool) | Joining(coordinator: Name) | Returning

  function Pass(u: Under, piece: Piece): Under {
    match piece
    case Beginning(pick, discard) =>
      if u.tick.Some? then u else var b := Begin(u.op, pick, discard); Under(b.op, b.pending)
    case Joining(c) => u.(op := Moved(u.op, Join(c)))
    case Returning => if u.tick.Some? then Under(Finish(u.op, u.tick.value), None) else u
  }

  function Passes(u: Under, pieces: seq<Piece>): Under {
    if pieces == [] then u else Pass(Passes(u, pieces[..|pieces| - 1]), pieces[|pieces| - 1])
  }

  /** Where the operation stands once the calls under way return. */
  function Settled(u: Under): Op { if u.tick.Some? then Finish(u.op, u.tick.value) else u.op }

  /** The whole steps and registrations these pieces amount to. */
  function MoveOf(u: Under, piece: Piece): seq<Move> {
    match piece
    case Beginning(pick, discard) => if u.tick.Some? then [] else [Step(pick, discard)]
    case Joining(c) => [Join(c)]
    case Returning => []
  }

  function MovesOf(u: Under, pieces: seq<Piece>): seq<Move> {
    if pieces == [] then [] else MovesOf(u, pieces[..|pieces| - 1]) + MoveOf(Passes(u, pieces[..|pieces| - 1]), pieces[|pieces| - 1])
  }

  predicate UnderOk(u: Under) {
    (u.op.stage == Complete ==> u.tick.None?) && (u.tick.Some? ==> PendingOk(u.op, u.tick.value) && !u.tick.value.ToFailed? && !u.tick.value.ToRolledBack?)
  }

  lemma JoinSettles(u: Under, c: Name)
    requires UnderOk(u) && u.op.stage != Complete
    ensures Settled(Pass(u, Joining(c))) == Moved(Settled(u), Join(c)) && UnderOk(Pass(u, Joining(c)))
  {
    if u.tick.Some? && !u.tick.value.ToComplete? { RegistrationCommutes(u.op, u.tick.value, c); }
  }

  /** Every piece moves the settled operation as the whole step does. */
  lemma PieceSettles(u: Under, piece: Piece)
    requires UnderOk(u) && !IsRollback(u.op.stage)
    ensures UnderOk(Pass(u, piece)) && !IsRollback(Pass(u, piece).op.stage)
    ensures Settled(Pass(u, piece)) == (if MoveOf(u, piece) == [] then Settled(u) else Moved(Settled(u), MoveOf(u, piece)[0]))
  {
    match piece
    case Beginning(pick, discard) =>
      if u.tick.None? {
        BeginThenFinish(u.op, pick, discard);
        BegunIsOk(u.op, pick, discard);
        BegunForward(u.op, pick, discard);
      }
    case Joining(c) => if u.op.stage != Complete { JoinSettles(u, c); }
    case Returning => if u.tick.Some? { FinishesForward(u.op, u.tick.value); }
  }

  lemma BegunForward(op: Op, pick: Name, discard: bool)
    requires !IsRollback(op.stage)
    ensures var b := Begin(op, pick, discard); !IsRollback(b.op.stage) && (b.pending.Some? ==> !b.pending.value.ToRolledBack?)
    ensures op.stage != Complete ==> Begin(op, pick, discard).op.stage != Complete
    ensures op.stage == Complete ==> Begin(op, pick, discard) == Begun(op, None)
  {
  }

  lemma FinishesForward(op: Op, p: Pending)
    requires PendingOk(op, p) && !p.ToRolledBack? && !IsRollback(op.stage)
    ensures !IsRollback(Finish(op, p).stage)
  {
  }

  lemma {:induction false} PiecesSettle(u: Under, pieces: seq<Piece>)
    requires UnderOk(u) && u.tick.None? && !IsRollback(u.op.stage)
    ensures var u' := Passes(u, pieces); UnderOk(u') && !IsRollback(u'.op.stage) && Settled(u') == Moves(u.op, MovesOf(u, pieces))
  {
    if pieces != [] {
      var n := |pieces| - 1;
      PiecesSettle(u, pieces[..n]);
      var at := Passes(u, pieces[..n]);
      PieceSettles(at, pieces[n]);
      MovesSnoc(u.op, MovesOf(u, pieces[..n]), MoveOf(at, pieces[n]));
    }
  }

  lemma {:induction false} MovesSnoc(op: Op, moves: seq<Move>, more: seq<Move>)
    requires |more| <= 1
    ensures Moves(op, moves + more) == if more == [] then Moves(op, moves) else Moved(Moves(op, moves), more[0])
  {
    if more == [] { assert moves + more == moves; }
    else { assert (moves + more)[..|moves + more| - 1] == moves; }
  }

  /** A restore in order whose calls are answered well and whose picks are useful
      completes, wherever in its ticks registrations arrive, in the same number of steps. */
  lemma {:induction false} CompletesDespiteRegistrations(op: Op, pieces: seq<Piece>)
    requires op.stage != ManualRepair && !IsRollback(op.stage) && InOrder(op)
    requires AllUseful(op, MovesOf(Under(op, None), pieces))
    requires |MovesOf(Under(op, None), pieces)| >= Measure(op) + 25 * Joins(MovesOf(Under(op, None), pieces))
    requires Passes(Under(op, None), pieces).tick.None?
    ensures Passes(Under(op, None), pieces).op.stage == Complete
  {
    PiecesSettle(Under(op, None), pieces);
    RestoreCompletes(op, MovesOf(Under(op, None), pieces));
  }
}
