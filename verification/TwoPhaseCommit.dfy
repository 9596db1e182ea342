/** Agreement over all runs: one coordinator object, any number of concurrent handlers,
    messages that arrive late, twice or never, and the participants' own recovery. */
module TwoPhaseCommit {
  import opened Basics
  import opened TransactionContract
  import opened CoordinatorSpec

  datatype Phase = PrepareMsg | CommitMsg | AbortMsg | StatusCommit | StatusAbort

  datatype Msg = Msg(shard: ShardId, phase: Phase)

  /** A participant of one transaction. Prepare is refused once a decision is recorded;
      commit and abort are idempotent and refuse the opposite decision. */
  datatype Participant = PIdle | PPrepared | PCommitted | PAborted

  /** An alarm in flight: it has read work and row and awaits registration and gate, or it
      has dispatched its work and ends when that work returns or throws. */
  datatype Alarm = Checking(work: QueueRow, row: TxRow) | Working(action: RecoveryAction)

  /** `conts` holds every continuation any handler has reached. A continuation may run
      again any number of times or never, which covers retries, duplicates and crashes.
      `sent` and the three acknowledgement sets only grow; `alarms` are those in flight. */
  datatype Sys = Sys(
    d: Durable, conts: set<Cont>, sent: set<Msg>, parts: map<ShardId, Participant>,
    prepareAcks: set<ShardId>, commitAcks: set<ShardId>, abortAcks: set<ShardId>, alarms: map<nat, Alarm>)
  {
    function Part(s: ShardId): Participant { if s in parts then parts[s] else PIdle }
  }

  datatype Input = NoInput | Reserved(reserve: ReserveResult) | Outcome(ok: bool) | Acks(from: set<ShardId>)
    | Cancelled(cancel: CancelResult) | Finalized(finalize: FinalizeResult)
    | ResolutionReply(resolution: Resolution) | Released(released: bool, quarantined: Option<ErrorCode>)

  datatype Event =
    | StartBegin(participants: set<ShardId>)
    | StartForceAbort
    | StartResolve(requested: Resolution)
    | StartAlarm(alarm: nat)
    | AlarmCheck(alarm: nat)
    | AlarmDone(alarm: nat)
    | AlarmFailed(alarm: nat)
    | Run(cont: Cont, input: Input)
    | Deliver(msg: Msg, accept: bool)
    | AskStatus(shard: ShardId)

  const Init := Sys(Durable(None, None), {}, {}, map[], {}, {}, {}, map[])

  function Spawn(s: Sys, c: Cont): Sys { s.(conts := s.conts + {c}) }

  function Advance(s: Sys, step: Step): Sys {
    s.(d := step.d, conts := s.conts + (if step.next.Some? then {step.next.value} else {}))
  }

  function ToAll(shards: set<ShardId>, phase: Phase): set<Msg> { set x | x in shards :: Msg(x, phase) }

  /** One handler running from a continuation to its next await. */
  function RunStep(s: Sys, c: Cont, input: Input, now: int): Sys
    requires c in s.conts
  {
    if c.Begin? then Advance(s, OnBegin(s.d, c.participants, now))
    else if s.d.tx.None? then s
    else
      var all := s.d.tx.value.Participants();
      match c
      case Begin(_) => s
      case Resume(row) => Advance(s, OnResume(s.d, row))
      case ReserveReply => if input.Reserved? then Advance(s, OnReserveReply(s.d, input.reserve, now)) else s
      case SendPrepare(row) => Spawn(s.(sent := s.sent + ToAll(row.Participants(), PrepareMsg)), PrepareReplies)
      case PrepareReplies => Advance(s, OnPrepareReplies(s.d, input == Outcome(true) && all <= s.prepareAcks))
      case DecideAbort => Advance(s, OnDecideAbort(s.d, now))
      case ReconcileAbort(row) =>
        var step := OnReconcileAbort(s.d, row);
        Advance(if step.next == Some(AbortReplies) then s.(sent := s.sent + ToAll(row.Participants(), AbortMsg)) else s, step)
      case AbortReplies => Advance(s, OnAbortReplies(s.d, input == Outcome(true) && all <= s.abortAcks, now))
      case Cancel(row) => Advance(s, OnCancel(s.d, row))
      case CancelReserveReply => if input.Reserved? then Advance(s, OnCancelReserveReply(s.d, input.reserve, now)) else s
      case CancelReply => if input.Cancelled? then Advance(s, OnCancelReply(s.d, input.cancel, now)) else s
      case DecideCommit => Advance(s, OnDecideCommit(s.d, now))
      case Finalize(row) => Advance(s, OnFinalize(s.d, row))
      case FinalizeReply(state) =>
        if input.Finalized? && state in {CommitDeciding, CommitPendingManifest} then Advance(s, OnFinalizeReply(s.d, state, input.finalize, now)) else s
      case FinalizeRecord(state) =>
        if state in {CommitDeciding, CommitPendingManifest} then Advance(s, OnFinalizeRecord(s.d, state, now)) else s
      case Commit(row) =>
        var step := OnCommit(s.d, row);
        Advance(if step.next == Some(CommitReplies) then s.(sent := s.sent + ToAll(row.Participants(), CommitMsg)) else s, step)
      case CommitReplies => if input.Acks? then Spawn(s, CommitRecord(input.from * s.commitAcks)) else s
      case CommitRecord(acked) => Advance(s, OnCommitRecord(s.d, acked, now))
      case ForceAbort(row) => Advance(s, OnForceAbort(s.d, row))
      case Resolve(row) => if input.ResolutionReply? then Advance(s, OnResolve(s.d, row, input.resolution, now)) else s
      case ReleaseReply => if input.Released? then s.(d := OnReleaseReply(s.d, input.released, input.quarantined, now)) else s
  }

  /** A participant handling one message; `accept` is its vote on a fresh prepare. */
  function DeliverStep(s: Sys, m: Msg, accept: bool): Sys
    requires m in s.sent
  {
    var p := s.Part(m.shard);
    match m.phase
    case PrepareMsg =>
      if p == PPrepared then s.(prepareAcks := s.prepareAcks + {m.shard})
      else if p == PIdle && accept then s.(parts := s.parts[m.shard := PPrepared], prepareAcks := s.prepareAcks + {m.shard})
      else s
    case CommitMsg =>
      if p == PPrepared || p == PCommitted then s.(parts := s.parts[m.shard := PCommitted], commitAcks := s.commitAcks + {m.shard}) else s
    case AbortMsg =>
      if p != PCommitted then s.(parts := s.parts[m.shard := PAborted], abortAcks := s.abortAcks + {m.shard}) else s
    case StatusCommit => if p == PPrepared then s.(parts := s.parts[m.shard := PCommitted]) else s
    case StatusAbort => if p == PPrepared then s.(parts := s.parts[m.shard := PAborted]) else s
  }

  /** A participant asking for the decision; the answer travels like any message. */
  function StatusStep(s: Sys, shard: ShardId): Sys {
    if s.d.tx.None? then s
    else
      var state := s.d.tx.value.state;
      if CommitAuthorized(state) then s.(sent := s.sent + {Msg(shard, StatusCommit)})
      else if state in {AbortDecided, Aborting, Aborted} then s.(sent := s.sent + {Msg(shard, StatusAbort)})
      else s
  }

  /** The second look: the work is dispatched, on the row as it was first read, or the
      alarm ends. */
  function AlarmCheckStep(s: Sys, id: nat, now: int): Sys
    requires id in s.alarms && s.alarms[id].Checking?
  {
    var work, row := s.alarms[id].work, s.alarms[id].row;
    if !StillDue(s.d, work, now) then s.(alarms := s.alarms - {id})
    else
      var s' := s.(alarms := s.alarms[id := Working(work.action)]);
      if work.action != ReleaseAction then Spawn(s', Resume(row))
      else if row.state == Committed then Spawn(s', ReleaseReply) else s'
  }

  /** The dispatched work threw: its action is rescheduled and the alarm ends. */
  function AlarmFailedStep(s: Sys, id: nat, now: int): Sys
    requires id in s.alarms && s.alarms[id].Working?
  {
    s.(d := OnAlarmFailed(s.d, s.alarms[id].action, now), alarms := s.alarms - {id})
  }

  /** One event; an event that is not enabled changes nothing. */
  function Next(s: Sys, e: Event, now: int): Sys {
    match e
    case StartBegin(participants) =>
      if participants == {} then s
      else if s.d.tx.Some? then Spawn(s, Resume(s.d.tx.value)) else Spawn(s, Begin(participants))
    case StartForceAbort => if s.d.tx.Some? then Spawn(s, ForceAbort(s.d.tx.value)) else s
    case StartResolve(requested) =>
      if s.d.tx.None? then s
      else if (if requested == ResolvedFinalized then s.d.tx.value.finalizeRequest else s.d.tx.value.cancelRequest)
        then Spawn(s, Resolve(s.d.tx.value)) else s
    case StartAlarm(id) =>
      if id in s.alarms || s.d.tx.None? || s.d.queue.None? then s
      else s.(alarms := s.alarms[id := Checking(s.d.queue.value, s.d.tx.value)])
    case AlarmCheck(id) => if id in s.alarms && s.alarms[id].Checking? then AlarmCheckStep(s, id, now) else s
    case AlarmDone(id) => s.(alarms := s.alarms - {id})
    case AlarmFailed(id) => if id in s.alarms && s.alarms[id].Working? then AlarmFailedStep(s, id, now) else s
    case Run(c, input) => if c in s.conts then RunStep(s, c, input, now) else s
    case Deliver(m, accept) => if m in s.sent then DeliverStep(s, m, accept) else s
    case AskStatus(shard) => StatusStep(s, shard)
  }

  /** The state after a whole run of (event, time) pairs. */
  function From(s: Sys, run: seq<(Event, int)>): Sys {
    if run == [] then s else Next(From(s, run[..|run| - 1]), run[|run| - 1].0, run[|run| - 1].1)
  }

  function After(run: seq<(Event, int)>): Sys { From(Init, run) }

  // ---- the invariant ----

  /** Prepare may have been sent: the transaction left the reservation step for good. */
  predicate Entered(t: TxRow) {
    t.state != ManifestReserving && (t.state == Aborted ==> t.cancelRequest || t.finalizeRequest)
  }

  /** What the row alone satisfies. */
  predicate RowOk(t: TxRow) {
    && t.state !in {New, CommitDecided}
    && t.decision == DecisionFor(t.state)
    && !(t.finalizeRequest && t.cancelRequest)
    && (t.state in {ManifestReserving, Preparing, Prepared} ==> !t.finalizeRequest && !t.cancelRequest)
    && (t.state in {AbortDecided, Aborting, AbortedPendingManifestCancel} ==> t.cancelRequest)
    && (CommitDecidedOrLater(t.state) ==> t.finalizeRequest)
    && (t.state == Quarantined ==> t.finalizeRequest || t.cancelRequest)
    && (t.manifestRecord <==> CommitAuthorized(t.state))
  }

  /** Facts about an earlier reading of the row that stay true of the row. */
  predicate Later(r: TxRow, t: TxRow) {
    && r.Participants() == t.Participants()
    && (r.finalizeRequest ==> t.finalizeRequest)
    && (r.cancelRequest ==> t.cancelRequest)
    && (r.manifestRecord ==> t.manifestRecord)
    && (Entered(r) ==> Entered(t))
    && (r.state == Committed ==> t.state == Committed)
  }

  /** The row a continuation carries was read earlier. */
  predicate ContOk(c: Cont, d: Durable) {
    match c
    case Begin(ps) => ps != {}
    case Resume(r) => OldRow(r, d)
    case SendPrepare(r) => OldRow(r, d) && Entered(r)
    case ReconcileAbort(r) => OldRow(r, d)
    case Cancel(r) => OldRow(r, d)
    case Finalize(r) => OldRow(r, d)
    case Commit(r) => OldRow(r, d)
    case ForceAbort(r) => OldRow(r, d)
    case Resolve(r) => OldRow(r, d) && (r.finalizeRequest || r.cancelRequest)
    case AbortReplies => d.tx.Some? && d.tx.value.cancelRequest
    case ReleaseReply => d.tx.Some? && d.tx.value.state == Committed
    case _ => d.tx.Some?
  }

  predicate AlarmOk(a: Alarm, d: Durable) { d.tx.Some? && (a.Checking? ==> OldRow(a.row, d)) }

  predicate OldRow(r: TxRow, d: Durable) { d.tx.Some? && RowOk(r) && Later(r, d.tx.value) }

  predicate MsgOk(m: Msg, d: Durable) {
    d.tx.Some?
    && match m.phase
       case PrepareMsg => Entered(d.tx.value)
       case CommitMsg => d.tx.value.manifestRecord
       case StatusCommit => d.tx.value.manifestRecord
       case AbortMsg => d.tx.value.cancelRequest
       case StatusAbort => d.tx.value.cancelRequest || d.tx.value.state == Aborted
  }

  predicate PartOk(s: Sys, x: ShardId) {
    match s.Part(x)
    case PIdle => true
    case PPrepared => s.d.tx.Some? && Entered(s.d.tx.value)
    case PCommitted => s.d.tx.Some? && s.d.tx.value.manifestRecord
    case PAborted => s.d.tx.Some? && (s.d.tx.value.cancelRequest || s.d.tx.value.state == Aborted)
  }

  /** What the row says about the participants. */
  ghost predicate Truthful(s: Sys)
    requires s.d.tx.Some?
  {
    var t := s.d.tx.value;
    && (t.state == Prepared || t.finalizeRequest ==> t.Participants() <= s.prepareAcks)
    && (t.cancelRequest && t.state in {AbortedPendingManifestCancel, Aborted, Quarantined} ==> t.Participants() <= s.abortAcks)
    && (t.state == Committed ==> t.Participants() <= s.commitAcks)
    && (forall x | x in t.phases :: t.phases[x] == PhaseCommitted ==> x in s.commitAcks)
  }

  /** A decided but unfinished transaction has a recovery row, or is parked with the
      error it was parked for. */
  predicate RecoveryOk(d: Durable) {
    d.tx.Some? && DecidedUnfinished(d.tx.value.state) ==>
      d.queue.Some? || (d.tx.value.state == AbortedPendingManifestCancel && d.tx.value.lastError.Some?)
  }

  ghost predicate Inv(s: Sys) {
    && (s.d.tx.Some? ==> RowOk(s.d.tx.value) && Truthful(s))
    && (s.d.tx.None? ==> s.d.queue.None?)
    && RecoveryOk(s.d)
    && (forall c | c in s.conts :: ContOk(c, s.d))
    && (forall id | id in s.alarms :: AlarmOk(s.alarms[id], s.d))
    && (forall acked, x | CommitRecord(acked) in s.conts && x in acked :: x in s.commitAcks)
    && (forall m | m in s.sent :: MsgOk(m, s.d))
    && (forall x :: PartOk(s, x))
    && (forall x | x in s.prepareAcks :: s.Part(x) != PIdle)
    && (forall x | x in s.commitAcks :: s.Part(x) == PCommitted)
    && (forall x | x in s.abortAcks :: s.Part(x) == PAborted)
  }

  // ---- every stretch keeps it ----

  predicate Grows(t: TxRow, t': TxRow) { Later(t, t') && (t.state == Aborted ==> t'.state == Aborted) }

  /** What one stretch must establish about the row, the queue and its continuation. */
  ghost predicate StepOk(s: Sys, step: Step) {
    && step.d.tx.Some? && RowOk(step.d.tx.value)
    && (s.d.tx.Some? ==> Grows(s.d.tx.value, step.d.tx.value))
    && Truthful(s.(d := step.d))
    && RecoveryOk(step.d)
    && (step.next.Some? ==> ContOk(step.next.value, step.d))
    && (step.next.Some? && step.next.value.CommitRecord? ==> step.next.value.acked <= s.commitAcks)
  }

  lemma AdvanceKeeps(s: Sys, step: Step, sent: set<Msg>)
    requires Inv(s) && StepOk(s, step)
    requires forall m | m in sent :: MsgOk(m, step.d)
    ensures Inv(Advance(s.(sent := s.sent + sent), step))
  {
    var s' := Advance(s.(sent := s.sent + sent), step);
    forall c | c in s'.conts ensures ContOk(c, s'.d) {
      if c in s.conts { assert ContOk(c, s.d); }
    }
    forall m | m in s'.sent ensures MsgOk(m, s'.d) {
      if m in s.sent { assert MsgOk(m, s.d); }
    }
    forall id | id in s'.alarms ensures AlarmOk(s'.alarms[id], s'.d) { assert AlarmOk(s.alarms[id], s.d); }
    forall x ensures PartOk(s', x) { assert PartOk(s, x); }
    forall acked, x | CommitRecord(acked) in s'.conts && x in acked ensures x in s'.commitAcks {
      if CommitRecord(acked) in s.conts {} else { assert step.next == Some(CommitRecord(acked)); }
    }
  }

  lemma PlainKeeps(s: Sys, step: Step)
    requires Inv(s) && StepOk(s, step)
    ensures Inv(Advance(s, step))
  {
    assert s.(sent := s.sent + {}) == s;
    AdvanceKeeps(s, step, {});
  }

  lemma RescheduleKeepsRow(d: Durable, action: RecoveryAction, guarded: bool, onlyWhile: set<TxState>, now: int)
    ensures Rescheduled(d, action, guarded, onlyWhile, now).tx == d.tx
    ensures d.queue.Some? ==> Rescheduled(d, action, guarded, onlyWhile, now).queue.Some?
  {
  }

  lemma BeginOk(s: Sys, participants: set<ShardId>, now: int)
    requires Inv(s)
    ensures Inv(Advance(s, OnBegin(s.d, participants, now)))
  {
    PlainKeeps(s, OnBegin(s.d, participants, now));
  }

  lemma ResumeOk(s: Sys, row: TxRow)
    requires Inv(s) && OldRow(row, s.d)
    ensures Inv(Advance(s, OnResume(s.d, row)))
  {
    StayPut(s);
    PlainKeeps(s, OnResume(s.d, row));
  }

  lemma ReserveReplyOk(s: Sys, result: ReserveResult, now: int)
    requires Inv(s) && s.d.tx.Some?
    ensures Inv(Advance(s, OnReserveReply(s.d, result, now)))
  {
    StayPut(s);
    PlainKeeps(s, OnReserveReply(s.d, result, now));
  }

  /** A stretch that leaves the durable state alone only owes its continuation. */
  lemma StayPut(s: Sys)
    requires Inv(s) && s.d.tx.Some?
    ensures forall next: Option<Cont> :: (next.Some? ==> ContOk(next.value, s.d) && !next.value.CommitRecord?) ==> StepOk(s, Step(s.d, next))
  {
    assert s.(d := s.d) == s;
  }

  lemma StayPutOk(s: Sys, c: Cont)
    requires Inv(s) && s.d.tx.Some? && ContOk(c, s.d) && (c.CommitRecord? ==> c.acked <= s.commitAcks)
    ensures StepOk(s, Go(s.d, c))
  {
    assert s.(d := s.d) == s;
  }

  lemma PrepareRepliesOk(s: Sys, ok: bool)
    requires Inv(s) && s.d.tx.Some? && (ok ==> s.d.tx.value.Participants() <= s.prepareAcks)
    ensures Inv(Advance(s, OnPrepareReplies(s.d, ok)))
  {
    StayPut(s);
    PlainKeeps(s, OnPrepareReplies(s.d, ok));
  }

  lemma DecideAbortOk(s: Sys, now: int)
    requires Inv(s) && s.d.tx.Some?
    ensures Inv(Advance(s, OnDecideAbort(s.d, now)))
  {
    StayPut(s);
    PlainKeeps(s, OnDecideAbort(s.d, now));
  }

  lemma DecideCommitOk(s: Sys, now: int)
    requires Inv(s) && s.d.tx.Some?
    ensures Inv(Advance(s, OnDecideCommit(s.d, now)))
  {
    StayPut(s);
    PlainKeeps(s, OnDecideCommit(s.d, now));
  }

  lemma ReconcileAbortOk(s: Sys, row: TxRow)
    requires Inv(s) && s.d.tx.Some? && OldRow(row, s.d)
    ensures StepOk(s, OnReconcileAbort(s.d, row))
  {
    StayPut(s);
  }

  lemma AbortMessagesOk(s: Sys, row: TxRow)
    requires Inv(s) && s.d.tx.Some? && OldRow(row, s.d) && OnReconcileAbort(s.d, row).next == Some(AbortReplies)
    ensures forall m | m in ToAll(row.Participants(), AbortMsg) :: MsgOk(m, OnReconcileAbort(s.d, row).d)
  {
  }

  lemma AbortRepliesOk(s: Sys, ok: bool, now: int)
    requires Inv(s) && s.d.tx.Some? && (ok ==> s.d.tx.value.Participants() <= s.abortAcks)
    ensures Inv(Advance(s, OnAbortReplies(s.d, ok, now)))
  {
    StayPut(s);
    PlainKeeps(s, OnAbortReplies(s.d, ok, now));
  }

  lemma ForceAbortOk(s: Sys, row: TxRow)
    requires Inv(s) && s.d.tx.Some? && OldRow(row, s.d)
    ensures Inv(Advance(s, OnForceAbort(s.d, row)))
  {
    StayPut(s);
    PlainKeeps(s, OnForceAbort(s.d, row));
  }

  lemma CancelOk(s: Sys, row: TxRow)
    requires Inv(s) && s.d.tx.Some? && OldRow(row, s.d)
    ensures Inv(Advance(s, OnCancel(s.d, row)))
  {
    StayPut(s);
    PlainKeeps(s, OnCancel(s.d, row));
  }

  lemma CancelReserveReplyOk(s: Sys, reserve: ReserveResult, now: int)
    requires Inv(s) && s.d.tx.Some?
    ensures Inv(Advance(s, OnCancelReserveReply(s.d, reserve, now)))
  {
    StayPut(s);
    PlainKeeps(s, OnCancelReserveReply(s.d, reserve, now));
  }

  lemma CancelReplyOk(s: Sys, cancel: CancelResult, now: int)
    requires Inv(s) && s.d.tx.Some?
    ensures Inv(Advance(s, OnCancelReply(s.d, cancel, now)))
  {
    StayPut(s);
    PlainKeeps(s, OnCancelReply(s.d, cancel, now));
  }

  lemma FinalizeStepOk(s: Sys, row: TxRow)
    requires Inv(s) && s.d.tx.Some? && OldRow(row, s.d)
    ensures Inv(Advance(s, OnFinalize(s.d, row)))
  {
    StayPut(s);
    PlainKeeps(s, OnFinalize(s.d, row));
  }

  lemma FinalizeReplyOk(s: Sys, state: TxState, finalize: FinalizeResult, now: int)
    requires Inv(s) && s.d.tx.Some? && state in {CommitDeciding, CommitPendingManifest}
    ensures Inv(Advance(s, OnFinalizeReply(s.d, state, finalize, now)))
  {
    StayPut(s);
    PlainKeeps(s, OnFinalizeReply(s.d, state, finalize, now));
  }

  lemma FinalizeRecordOk(s: Sys, state: TxState, now: int)
    requires Inv(s) && s.d.tx.Some? && state in {CommitDeciding, CommitPendingManifest}
    ensures Inv(Advance(s, OnFinalizeRecord(s.d, state, now)))
  {
    StayPut(s);
    PlainKeeps(s, OnFinalizeRecord(s.d, state, now));
  }

  lemma CommitOk(s: Sys, row: TxRow)
    requires Inv(s) && s.d.tx.Some? && OldRow(row, s.d)
    ensures StepOk(s, OnCommit(s.d, row))
  {
    StayPut(s);
  }

  lemma CommitMessagesOk(s: Sys, row: TxRow)
    requires Inv(s) && s.d.tx.Some? && OldRow(row, s.d) && OnCommit(s.d, row).next == Some(CommitReplies)
    ensures forall m | m in ToAll(row.Participants(), CommitMsg) :: MsgOk(m, OnCommit(s.d, row).d)
  {
  }

  lemma CommitRecordOk(s: Sys, acked: set<ShardId>, now: int)
    requires Inv(s) && s.d.tx.Some? && acked <= s.commitAcks
    ensures Inv(Advance(s, OnCommitRecord(s.d, acked, now)))
  {
    StayPut(s);
    PlainKeeps(s, OnCommitRecord(s.d, acked, now));
  }

  /** Fewer alarms in flight owe less. */
  lemma AlarmsEnd(s: Sys, id: nat)
    requires Inv(s)
    ensures Inv(s.(alarms := s.alarms - {id}))
  {
    var s' := s.(alarms := s.alarms - {id});
    forall x ensures PartOk(s', x) { assert PartOk(s, x); }
    if s.d.tx.Some? { assert s'.(alarms := s.alarms) == s; }
  }

  lemma AlarmStarts(s: Sys, id: nat, a: Alarm)
    requires Inv(s) && AlarmOk(a, s.d)
    ensures Inv(s.(alarms := s.alarms[id := a]))
  {
    var s' := s.(alarms := s.alarms[id := a]);
    forall x ensures PartOk(s', x) { assert PartOk(s, x); }
  }

  lemma AlarmCheckKeeps(s: Sys, id: nat, now: int)
    requires Inv(s) && id in s.alarms && s.alarms[id].Checking?
    ensures Inv(AlarmCheckStep(s, id, now))
  {
    AlarmsEnd(s, id);
    var work, row := s.alarms[id].work, s.alarms[id].row;
    assert AlarmOk(s.alarms[id], s.d);
    AlarmStarts(s, id, Working(work.action));
    var s' := s.(alarms := s.alarms[id := Working(work.action)]);
    if work.action != ReleaseAction { SpawnKeeps(s', Resume(row)); }
    else if row.state == Committed { SpawnKeeps(s', ReleaseReply); }
  }

  /** Queue-only steps: the alarm's error path and the retention release. */
  lemma AlarmFailedKeeps(s: Sys, id: nat, now: int)
    requires Inv(s) && id in s.alarms && s.alarms[id].Working?
    ensures Inv(AlarmFailedStep(s, id, now))
  {
    assert AlarmOk(s.alarms[id], s.d);
    var failed := s.(d := OnAlarmFailed(s.d, s.alarms[id].action, now));
    PlainKeeps(s, Done(failed.d));
    assert Advance(s, Done(failed.d)) == failed;
    AlarmsEnd(failed, id);
  }

  lemma ReleaseReplyKeeps(s: Sys, ok: bool, quarantined: Option<ErrorCode>, now: int)
    requires Inv(s) && s.d.tx.Some? && s.d.tx.value.state == Committed
    ensures Inv(s.(d := OnReleaseReply(s.d, ok, quarantined, now)))
  {
    var released := s.(d := OnReleaseReply(s.d, ok, quarantined, now));
    PlainKeeps(s, Done(released.d));
    assert Advance(s, Done(released.d)) == released;
  }

  lemma ResolvedFinalizedOk(s: Sys, row: TxRow, now: int)
    requires Inv(s) && s.d.tx.Some? && OldRow(row, s.d) && (row.finalizeRequest || row.cancelRequest)
    ensures StepOk(s, OnResolve(s.d, row, ResolvedFinalized, now))
  {
    StayPut(s);
  }

  lemma ResolvedCancelledOk(s: Sys, row: TxRow, now: int)
    requires Inv(s) && s.d.tx.Some? && OldRow(row, s.d) && (row.finalizeRequest || row.cancelRequest)
    ensures StepOk(s, OnResolve(s.d, row, ResolvedCancelled, now))
  {
    StayPut(s);
  }

  lemma ResolveStepOk(s: Sys, row: TxRow, resolution: Resolution, now: int)
    requires Inv(s) && s.d.tx.Some? && OldRow(row, s.d) && (row.finalizeRequest || row.cancelRequest)
    ensures Inv(Advance(s, OnResolve(s.d, row, resolution, now)))
  {
    ResolvedFinalizedOk(s, row, now);
    ResolvedCancelledOk(s, row, now);
    PlainKeeps(s, OnResolve(s.d, row, resolution, now));
  }

  lemma RunPrepareKeeps(s: Sys, c: Cont, input: Input, now: int)
    requires Inv(s) && c in s.conts && s.d.tx.Some?
    requires c.Resume? || c.ReserveReply? || c.SendPrepare? || c.PrepareReplies? || c.DecideAbort? || c.DecideCommit?
    ensures Inv(RunStep(s, c, input, now))
  {
    assert ContOk(c, s.d);
    match c
    case Resume(row) => ResumeOk(s, row);
    case ReserveReply =>
      if input.Reserved? {
        ReserveReplyOk(s, input.reserve, now);
      }
    case SendPrepare(row) =>
      StayPut(s);
      AdvanceKeeps(s, Go(s.d, PrepareReplies), ToAll(row.Participants(), PrepareMsg));
    case PrepareReplies =>
      var ok := input == Outcome(true) && s.d.tx.value.Participants() <= s.prepareAcks;
      PrepareRepliesOk(s, ok);
    case DecideAbort => DecideAbortOk(s, now);
    case DecideCommit => DecideCommitOk(s, now);
  }

  lemma ReconcileAbortKeeps(s: Sys, row: TxRow)
    requires Inv(s) && s.d.tx.Some? && OldRow(row, s.d) && ReconcileAbort(row) in s.conts
    ensures Inv(RunStep(s, ReconcileAbort(row), NoInput, 0))
  {
    ReconcileAbortOk(s, row);
    var step := OnReconcileAbort(s.d, row);
    if step.next == Some(AbortReplies) {
      AbortMessagesOk(s, row);
      AdvanceKeeps(s, step, ToAll(row.Participants(), AbortMsg));
    } else {
      PlainKeeps(s, step);
    }
  }

  lemma CommitKeeps(s: Sys, row: TxRow)
    requires Inv(s) && s.d.tx.Some? && OldRow(row, s.d) && Commit(row) in s.conts
    ensures Inv(RunStep(s, Commit(row), NoInput, 0))
  {
    CommitOk(s, row);
    var step := OnCommit(s.d, row);
    if step.next == Some(CommitReplies) {
      CommitMessagesOk(s, row);
      AdvanceKeeps(s, step, ToAll(row.Participants(), CommitMsg));
    } else {
      PlainKeeps(s, step);
    }
  }

  lemma RunAbortKeeps(s: Sys, c: Cont, input: Input, now: int)
    requires Inv(s) && c in s.conts && s.d.tx.Some?
    requires c.ReconcileAbort? || c.AbortReplies? || c.Cancel? || c.CancelReserveReply? || c.CancelReply? || c.ForceAbort?
    ensures Inv(RunStep(s, c, input, now))
  {
    assert ContOk(c, s.d);
    match c
    case ReconcileAbort(row) => ReconcileAbortKeeps(s, row);
    case AbortReplies =>
      var ok := input == Outcome(true) && s.d.tx.value.Participants() <= s.abortAcks;
      AbortRepliesOk(s, ok, now);
    case Cancel(row) => CancelOk(s, row);
    case CancelReserveReply =>
      if input.Reserved? {
        CancelReserveReplyOk(s, input.reserve, now);
      }
    case CancelReply =>
      if input.Cancelled? {
        CancelReplyOk(s, input.cancel, now);
      }
    case ForceAbort(row) => ForceAbortOk(s, row);
  }

  lemma RunCommitKeeps(s: Sys, c: Cont, input: Input, now: int)
    requires Inv(s) && c in s.conts && s.d.tx.Some?
    requires c.Finalize? || c.FinalizeReply? || c.FinalizeRecord? || c.Commit? || c.CommitReplies? || c.CommitRecord? || c.Resolve? || c.ReleaseReply?
    ensures Inv(RunStep(s, c, input, now))
  {
    assert ContOk(c, s.d);
    match c
    case Finalize(row) => FinalizeStepOk(s, row);
    case FinalizeReply(state) =>
      if input.Finalized? && state in {CommitDeciding, CommitPendingManifest} {
        FinalizeReplyOk(s, state, input.finalize, now);
      }
    case FinalizeRecord(state) =>
      if state in {CommitDeciding, CommitPendingManifest} {
        FinalizeRecordOk(s, state, now);
      }
    case Commit(row) => CommitKeeps(s, row);
    case CommitReplies =>
      if input.Acks? { CommitRepliesKeep(s, input.from * s.commitAcks); }
    case CommitRecord(acked) =>
      assert acked <= s.commitAcks;
      CommitRecordOk(s, acked, now);
    case Resolve(row) =>
      if input.ResolutionReply? {
        ResolveStepOk(s, row, input.resolution, now);
      }
    case ReleaseReply =>
      if input.Released? { ReleaseReplyKeeps(s, input.released, input.quarantined, now); }
  }

  lemma CommitRepliesKeep(s: Sys, acked: set<ShardId>)
    requires Inv(s) && s.d.tx.Some? && acked <= s.commitAcks
    ensures Inv(Spawn(s, CommitRecord(acked)))
  {
    StayPutOk(s, CommitRecord(acked));
    PlainKeeps(s, Go(s.d, CommitRecord(acked)));
  }

  lemma RunKeeps(s: Sys, c: Cont, input: Input, now: int)
    requires Inv(s) && c in s.conts
    ensures Inv(RunStep(s, c, input, now))
  {
    if c.Begin? {
      assert ContOk(c, s.d);
      BeginOk(s, c.participants, now);
    } else if s.d.tx.None? {
    } else {
      match c
      case Resume(_) => RunPrepareKeeps(s, c, input, now);
      case ReserveReply => RunPrepareKeeps(s, c, input, now);
      case SendPrepare(_) => RunPrepareKeeps(s, c, input, now);
      case PrepareReplies => RunPrepareKeeps(s, c, input, now);
      case DecideAbort => RunPrepareKeeps(s, c, input, now);
      case DecideCommit => RunPrepareKeeps(s, c, input, now);
      case ReconcileAbort(_) => RunAbortKeeps(s, c, input, now);
      case AbortReplies => RunAbortKeeps(s, c, input, now);
      case Cancel(_) => RunAbortKeeps(s, c, input, now);
      case CancelReserveReply => RunAbortKeeps(s, c, input, now);
      case CancelReply => RunAbortKeeps(s, c, input, now);
      case ForceAbort(_) => RunAbortKeeps(s, c, input, now);
      case _ => RunCommitKeeps(s, c, input, now);
    }
  }

  lemma DeliverKeeps(s: Sys, m: Msg, accept: bool)
    requires Inv(s) && m in s.sent
    ensures Inv(DeliverStep(s, m, accept))
  {
    var s' := DeliverStep(s, m, accept);
    assert MsgOk(m, s.d) && PartOk(s, m.shard);
    forall x ensures PartOk(s', x) { assert PartOk(s, x); }
  }

  lemma StatusKeeps(s: Sys, shard: ShardId)
    requires Inv(s)
    ensures Inv(StatusStep(s, shard))
  {
    var s' := StatusStep(s, shard);
    forall x ensures PartOk(s', x) { assert PartOk(s, x); }
  }

  lemma SpawnKeeps(s: Sys, c: Cont)
    requires Inv(s) && ContOk(c, s.d) && !c.CommitRecord?
    ensures Inv(Spawn(s, c))
  {
    var s' := Spawn(s, c);
    forall x ensures PartOk(s', x) { assert PartOk(s, x); }
    assert s'.(conts := s.conts) == s;
  }

  lemma NextKeeps(s: Sys, e: Event, now: int)
    requires Inv(s)
    ensures Inv(Next(s, e, now))
  {
    match e
    case StartBegin(participants) =>
      if participants != {} { SpawnKeeps(s, if s.d.tx.Some? then Resume(s.d.tx.value) else Begin(participants)); }
    case StartForceAbort => if s.d.tx.Some? { SpawnKeeps(s, ForceAbort(s.d.tx.value)); }
    case StartResolve(requested) => if s.d.tx.Some? && Next(s, e, now) != s { SpawnKeeps(s, Resolve(s.d.tx.value)); }
    case StartAlarm(id) =>
      if id !in s.alarms && s.d.tx.Some? && s.d.queue.Some? { AlarmStarts(s, id, Checking(s.d.queue.value, s.d.tx.value)); }
    case AlarmCheck(id) => if id in s.alarms && s.alarms[id].Checking? { AlarmCheckKeeps(s, id, now); }
    case AlarmDone(id) => AlarmsEnd(s, id);
    case AlarmFailed(id) => if id in s.alarms && s.alarms[id].Working? { AlarmFailedKeeps(s, id, now); }
    case Run(c, input) => if c in s.conts { RunKeeps(s, c, input, now); }
    case Deliver(m, accept) => if m in s.sent { DeliverKeeps(s, m, accept); }
    case AskStatus(shard) => StatusKeeps(s, shard);
  }

  lemma {:induction false} FromKeeps(s: Sys, run: seq<(Event, int)>)
    requires Inv(s)
    ensures Inv(From(s, run))
  {
    if run != [] {
      var n := |run| - 1;
      FromKeeps(s, run[..n]);
      NextKeeps(From(s, run[..n]), run[n].0, run[n].1);
    }
  }

  lemma {:induction false} Reachable(run: seq<(Event, int)>)
    ensures Inv(After(run))
  {
    FromKeeps(Init, run);
  }

  // ---- what it means ----

  /** Agreement: in no run does one participant commit and another abort, and no commit
      is ever sent together with an abort. */
  lemma {:induction false} Agreement(run: seq<(Event, int)>, x: ShardId, y: ShardId)
    ensures !(After(run).Part(x) == PCommitted && After(run).Part(y) == PAborted)
    ensures !(Msg(x, CommitMsg) in After(run).sent && Msg(y, AbortMsg) in After(run).sent)
    ensures !(Msg(x, CommitMsg) in After(run).sent && Msg(y, StatusAbort) in After(run).sent)
    ensures !(Msg(x, StatusCommit) in After(run).sent && Msg(y, AbortMsg) in After(run).sent)
    ensures !(Msg(x, StatusCommit) in After(run).sent && Msg(y, StatusAbort) in After(run).sent)
  {
    Reachable(run);
    var s := After(run);
    assert PartOk(s, x) && PartOk(s, y);
    assert forall m | m in s.sent :: MsgOk(m, s.d);
  }

  /** A commit is sent only after every participant acknowledged prepare and the finalized
      record is stored; the two terminal requests never coexist. */
  lemma {:induction false} CommitIsAuthorized(run: seq<(Event, int)>, x: ShardId)
    ensures var s := After(run);
      Msg(x, CommitMsg) in s.sent || s.Part(x) == PCommitted ==>
        s.d.tx.Some? && s.d.tx.value.manifestRecord && s.d.tx.value.finalizeRequest && s.d.tx.value.Participants() <= s.prepareAcks
    ensures var d := After(run).d; d.tx.Some? ==> !(d.tx.value.finalizeRequest && d.tx.value.cancelRequest)
  {
    Reachable(run);
    var s := After(run);
    assert PartOk(s, x);
    if Msg(x, CommitMsg) in s.sent { assert MsgOk(Msg(x, CommitMsg), s.d); }
  }

  /** The recorded outcome is the participants' outcome: committed means every
      participant applied it; aborted means none ever will. */
  lemma {:induction false} OutcomeIsTrue(run: seq<(Event, int)>, x: ShardId)
    requires After(run).d.tx.Some? && x in After(run).d.tx.value.Participants()
    ensures After(run).d.tx.value.state == Committed ==> After(run).Part(x) == PCommitted
    ensures After(run).d.tx.value.state == Aborted ==> After(run).Part(x) != PCommitted
    ensures After(run).d.tx.value.state == Aborted && After(run).d.tx.value.cancelRequest ==> After(run).Part(x) == PAborted
    ensures After(run).d.tx.value.state == Aborted && !Entered(After(run).d.tx.value) ==> After(run).Part(x) in {PIdle, PAborted}
    ensures After(run).d.tx.value.phases[x] == PhaseCommitted ==> After(run).Part(x) == PCommitted
  {
    Reachable(run);
    assert PartOk(After(run), x);
  }

  /** After every event, a decided but unfinished transaction is in the recovery queue,
      except a parked cancellation that stored its error. */
  lemma {:induction false} UnfinishedIsQueued(run: seq<(Event, int)>)
    ensures var d := After(run).d;
      d.tx.Some? && DecidedUnfinished(d.tx.value.state) && d.queue.None? ==>
        d.tx.value.state == AbortedPendingManifestCancel && d.tx.value.lastError.Some?
    ensures var d := After(run).d; d.tx.Some? ==> d.tx.value.decision == DecisionFor(d.tx.value.state)
  {
    Reachable(run);
  }

  // ---- the release that can be forgotten ----

  /** A committed transaction still owes its retention release. */
  predicate OwesRelease(d: Durable) {
    d.tx.Some? && d.tx.value.state == Committed && d.queue.Some? && d.queue.value.action == ReleaseAction
  }

  predicate ForgotRelease(d: Durable) {
    d.tx.Some? && d.tx.value.state == Committed && d.queue.Some? && d.queue.value.action != ReleaseAction
  }

  predicate IsQuiet(s: Sys, s': Sys) {
    s'.d.queue == s.d.queue && s'.d.tx.Some? && s'.d.tx.value.state == Committed && (ReleaseReply in s'.conts <==> ReleaseReply in s.conts)
  }

  lemma CommittedRunIsQuietEarly(s: Sys, c: Cont, input: Input, now: int)
    requires Inv(s) && c in s.conts && s.d.tx.Some? && s.d.tx.value.state == Committed
    requires c.Begin? || c.Resume? || c.ReserveReply? || c.SendPrepare? || c.PrepareReplies? || c.ForceAbort? || c.Resolve?
    ensures IsQuiet(s, RunStep(s, c, input, now))
  {
    assert ContOk(c, s.d);
  }

  lemma CommittedRunIsQuietLate(s: Sys, c: Cont, input: Input, now: int)
    requires Inv(s) && c in s.conts && s.d.tx.Some? && s.d.tx.value.state == Committed && !c.ReleaseReply?
    requires !(c.Begin? || c.Resume? || c.ReserveReply? || c.SendPrepare? || c.PrepareReplies? || c.ForceAbort? || c.Resolve?)
    ensures IsQuiet(s, RunStep(s, c, input, now))
  {
    assert ContOk(c, s.d);
  }

  /** Committed is final, and nothing but the alarm and the release touch its queue row. */
  lemma CommittedRunIsQuiet(s: Sys, c: Cont, input: Input, now: int)
    requires Inv(s) && c in s.conts && s.d.tx.Some? && s.d.tx.value.state == Committed && !c.ReleaseReply?
    ensures var d := RunStep(s, c, input, now).d; d.queue == s.d.queue && d.tx.Some? && d.tx.value.state == Committed
    ensures ReleaseReply in RunStep(s, c, input, now).conts <==> ReleaseReply in s.conts
  {
    if c.Begin? || c.Resume? || c.ReserveReply? || c.SendPrepare? || c.PrepareReplies? || c.ForceAbort? || c.Resolve? {
      CommittedRunIsQuietEarly(s, c, input, now);
    } else { CommittedRunIsQuietLate(s, c, input, now); }
  }

  /** Some alarm that dispatched other work than the release has not ended. */
  ghost predicate StaleWork(s: Sys) { exists id | id in s.alarms :: s.alarms[id].Working? && s.alarms[id].action != ReleaseAction }

  predicate FailsStale(s: Sys, e: Event) {
    e.AlarmFailed? && e.alarm in s.alarms && s.alarms[e.alarm].Working? && s.alarms[e.alarm].action != ReleaseAction
  }

  /** The queue of a committed transaction names its release, or nothing any more. */
  predicate ReleaseIsNext(d: Durable) {
    d.tx.Some? && d.tx.value.state == Committed && (d.queue.Some? ==> d.queue.value.action == ReleaseAction)
  }

  lemma CommittedStep(s: Sys, e: Event, now: int)
    requires Inv(s) && ReleaseIsNext(s.d)
    ensures !FailsStale(s, e) ==> ReleaseIsNext(Next(s, e, now).d)
    ensures FailsStale(s, e) ==> ForgotRelease(Next(s, e, now).d)
    ensures !StaleWork(s) ==> !FailsStale(s, e) && !StaleWork(Next(s, e, now))
  {
    if e.Run? && e.cont in s.conts && !e.cont.ReleaseReply? {
      CommittedRunIsQuiet(s, e.cont, e.input, now);
      RunLeavesAlarms(s, e.cont, e.input, now);
    }
  }

  lemma RunLeavesAlarms(s: Sys, c: Cont, input: Input, now: int)
    requires c in s.conts
    ensures RunStep(s, c, input, now).alarms == s.alarms
  {
  }

  lemma {:induction false} CommittedRun(s: Sys, run: seq<(Event, int)>)
    requires Inv(s) && ReleaseIsNext(s.d) && !StaleWork(s)
    ensures ReleaseIsNext(From(s, run).d) && !StaleWork(From(s, run))
  {
    if run != [] {
      var n := |run| - 1;
      CommittedRun(s, run[..n]);
      FromKeeps(s, run[..n]);
      CommittedStep(From(s, run[..n]), run[n].0, run[n].1);
    }
  }

  lemma {:induction false} OneEvent(s: Sys, e: Event, now: int)
    ensures From(s, [(e, now)]) == Next(s, e, now)
  {
    assert [(e, now)][..0] == [];
  }

  /** An owed release survives every later run if and only if, when it is owed, no alarm
      that dispatched earlier work is still working: the error path of such an alarm
      reschedules what it dispatched, whatever the row has become. */
  lemma {:induction false} ReleaseIsSafeIff(s: Sys)
    requires Inv(s) && OwesRelease(s.d)
    ensures (forall run: seq<(Event, int)> :: !ForgotRelease(From(s, run).d)) <==> !StaleWork(s)
  {
    if StaleWork(s) {
      var id :| id in s.alarms && s.alarms[id].Working? && s.alarms[id].action != ReleaseAction;
      CommittedStep(s, AlarmFailed(id), 0);
      OneEvent(s, AlarmFailed(id), 0);
    } else {
      forall run: seq<(Event, int)> ensures !ForgotRelease(From(s, run).d) { CommittedRun(s, run); }
    }
  }

  /** And along any run: the release stays next in the queue, or confirmed, if and only if
      no alarm that dispatched other work fails in it. */
  lemma {:induction false} ReleaseForgottenIff(s: Sys, run: seq<(Event, int)>)
    requires Inv(s) && ReleaseIsNext(s.d)
    ensures (forall n: nat | n <= |run| :: !ForgotRelease(From(s, run[..n]).d))
      <==> (forall n: nat | n < |run| :: !FailsStale(From(s, run[..n]), run[n].0))
  {
    if forall n: nat | n < |run| :: !FailsStale(From(s, run[..n]), run[n].0) {
      forall n: nat | n <= |run| ensures !ForgotRelease(From(s, run[..n]).d) { UnfailedPrefix(s, run, n); }
    } else {
      var n := FirstFailure(s, run, |run|);
      FirstFailureForgets(s, run, n);
    }
  }

  lemma {:induction false} FirstFailureForgets(s: Sys, run: seq<(Event, int)>, n: nat)
    requires Inv(s) && ReleaseIsNext(s.d) && n < |run| && FailsStale(From(s, run[..n]), run[n].0)
    requires forall m: nat | m < n :: !FailsStale(From(s, run[..m]), run[m].0)
    ensures ForgotRelease(From(s, run[..n + 1]).d)
  {
    UnfailedPrefix(s, run, n);
    FromKeeps(s, run[..n]);
    CommittedStep(From(s, run[..n]), run[n].0, run[n].1);
    assert run[..n + 1][..n] == run[..n];
  }

  lemma {:induction false} FirstFailure(s: Sys, run: seq<(Event, int)>, bound: nat) returns (n: nat)
    requires bound <= |run| && exists m: nat | m < bound :: FailsStale(From(s, run[..m]), run[m].0)
    ensures n < bound && FailsStale(From(s, run[..n]), run[n].0)
    ensures forall m: nat | m < n :: !FailsStale(From(s, run[..m]), run[m].0)
  {
    if exists m: nat | m < bound - 1 :: FailsStale(From(s, run[..m]), run[m].0) { n := FirstFailure(s, run, bound - 1); }
    else { n := bound - 1; }
  }

  lemma {:induction false} UnfailedPrefix(s: Sys, run: seq<(Event, int)>, n: nat)
    requires Inv(s) && ReleaseIsNext(s.d) && n <= |run| && forall m: nat | m < n :: !FailsStale(From(s, run[..m]), run[m].0)
    ensures ReleaseIsNext(From(s, run[..n]).d)
  {
    if n > 0 {
      UnfailedPrefix(s, run, n - 1);
      FromKeeps(s, run[..n - 1]);
      CommittedStep(From(s, run[..n - 1]), run[n - 1].0, run[n - 1].1);
      assert run[..n][..n - 1] == run[..n - 1];
    }
  }

  /** No release call is under way: none awaited, and no alarm that dispatched one. */
  ghost predicate NoReleaseCall(s: Sys) {
    ReleaseReply !in s.conts && forall id | id in s.alarms :: s.alarms[id] != Working(ReleaseAction)
  }

  lemma ForgottenStep(s: Sys, e: Event, now: int)
    requires Inv(s) && ForgotRelease(s.d) && NoReleaseCall(s)
    ensures ForgotRelease(Next(s, e, now).d) && NoReleaseCall(Next(s, e, now))
  {
    if e.Run? && e.cont in s.conts {
      CommittedRunIsQuiet(s, e.cont, e.input, now);
      RunLeavesAlarms(s, e.cont, e.input, now);
    }
  }

  /** Once forgotten, with no release call under way, it is never called for again. */
  lemma {:induction false} ForgottenForGood(s: Sys, rest: seq<(Event, int)>)
    requires Inv(s) && ForgotRelease(s.d) && NoReleaseCall(s)
    ensures ForgotRelease(From(s, rest).d) && NoReleaseCall(From(s, rest))
  {
    if rest != [] {
      var n := |rest| - 1;
      ForgottenForGood(s, rest[..n]);
      FromKeeps(s, rest[..n]);
      ForgottenStep(From(s, rest[..n]), rest[n].0, rest[n].1);
    }
  }

  // ---- a run that commits, and then forgets ----

  ghost predicate CanReach(s: Sys) { exists run: seq<(Event, int)> :: After(run) == s }

  lemma CanReachNext(s: Sys, e: Event, now: int)
    requires CanReach(s)
    ensures CanReach(Next(s, e, now))
  {
    var run: seq<(Event, int)> :| After(run) == s;
    var longer := run + [(e, now)];
    assert longer[..|longer| - 1] == run;
    assert After(longer) == Next(s, e, now);
  }

  /** A reachable state of a one-participant transaction, with one alarm in flight that
      dispatched its reservation, and no release call under way. */
  ghost predicate At(s: Sys, x: ShardId, state: TxState) {
    && CanReach(s) && s.d.tx.Some? && s.d.tx.value.state == state && s.d.tx.value.Participants() == {x} && ReleaseReply !in s.conts
    && s.alarms == map[0 := Working(ReserveAction)]
  }

  lemma Take(s: Sys, e: Event) returns (s': Sys)
    requires CanReach(s)
    ensures CanReach(s') && s' == Next(s, e, 0)
  {
    CanReachNext(s, e, 0);
    s' := Next(s, e, 0);
  }

  lemma CanBegin(x: ShardId) returns (s: Sys)
    ensures CanReach(s) && s.d == Inserted({x}, 0) && s.parts == map[] && s.alarms == map[]
    ensures Resume(s.d.tx.value) in s.conts && ReleaseReply !in s.conts
  {
    assert After([]) == Init;
    s := Take(Init, StartBegin({x}));
    assert Begin({x}) in s.conts;
    s := Take(s, Run(Begin({x}), NoInput));
  }

  lemma CanReserve(x: ShardId) returns (s: Sys)
    ensures At(s, x, ManifestReserving) && Resume(s.d.tx.value) in s.conts && s.parts == map[]
  {
    s := CanBegin(x);
    s := Take(s, StartAlarm(0));
    s := Take(s, AlarmCheck(0));
  }

  lemma CanEnter(x: ShardId) returns (s: Sys)
    ensures At(s, x, Preparing) && SendPrepare(s.d.tx.value) in s.conts && s.parts == map[]
  {
    s := CanReserve(x);
    s := Take(s, Run(Resume(s.d.tx.value), NoInput));
    s := Take(s, Run(ReserveReply, Reserved(ReserveOk)));
  }

  lemma CanPrepare(x: ShardId) returns (s: Sys)
    ensures At(s, x, Preparing) && PrepareReplies in s.conts && x in s.prepareAcks && s.Part(x) == PPrepared
  {
    s := CanEnter(x);
    s := Take(s, Run(SendPrepare(s.d.tx.value), NoInput));
    assert Msg(x, PrepareMsg) in s.sent;
    s := Take(s, Deliver(Msg(x, PrepareMsg), true));
  }

  lemma CanBePrepared(x: ShardId) returns (s: Sys)
    ensures At(s, x, Prepared) && DecideCommit in s.conts && s.Part(x) == PPrepared
  {
    s := CanPrepare(x);
    s := Take(s, Run(PrepareReplies, Outcome(true)));
    s := Take(s, Run(Resume(s.d.tx.value), NoInput));
  }

  lemma CanDecide(x: ShardId) returns (s: Sys)
    ensures At(s, x, CommitDeciding) && FinalizeReply(CommitDeciding) in s.conts && s.Part(x) == PPrepared
  {
    s := CanBePrepared(x);
    s := Take(s, Run(DecideCommit, NoInput));
    s := Take(s, Run(Finalize(s.d.tx.value), NoInput));
  }

  lemma CanRegister(x: ShardId) returns (s: Sys)
    ensures At(s, x, ManifestRegistered) && Commit(s.d.tx.value) in s.conts && s.Part(x) == PPrepared
  {
    s := CanDecide(x);
    s := Take(s, Run(FinalizeReply(CommitDeciding), Finalized(FinalizeOk)));
    s := Take(s, Run(FinalizeRecord(CommitDeciding), NoInput));
  }

  lemma CanSendCommit(x: ShardId) returns (s: Sys)
    ensures At(s, x, Committing) && CommitReplies in s.conts && x in s.commitAcks && s.Part(x) == PCommitted
  {
    s := CanRegister(x);
    s := Take(s, Run(Commit(s.d.tx.value), NoInput));
    assert Msg(x, CommitMsg) in s.sent;
    s := Take(s, Deliver(Msg(x, CommitMsg), true));
  }

  lemma CanCommit(x: ShardId) returns (s: Sys)
    ensures At(s, x, Committed) && OwesRelease(s.d) && s.Part(x) == PCommitted
  {
    s := CanSendCommit(x);
    var acked := {x} * s.commitAcks;
    assert acked == {x};
    s := Take(s, Run(CommitReplies, Acks({x})));
    s := Take(s, Run(CommitRecord(acked), NoInput));
  }

  /** A run from the start: an alarm dispatches the reservation and awaits it, a begin that
      came meanwhile takes the transaction to its commit, and the alarm's call then fails:
      the release is forgotten, and it stays forgotten. */
  lemma ReleaseCanBeForgotten(x: ShardId) returns (s: Sys)
    ensures CanReach(s) && OwesRelease(s.d) && s.Part(x) == PCommitted && s.alarms == map[0 := Working(ReserveAction)]
    ensures var s' := Next(s, AlarmFailed(0), 0); ForgotRelease(s'.d) && NoReleaseCall(s')
  {
    s := CanCommit(x);
  }
}
