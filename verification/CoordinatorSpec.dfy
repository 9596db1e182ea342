/** What each uninterrupted stretch of coordinator code does to the durable row and the
    recovery queue, state model 2. A stretch ends at the next await; what the handler
    does after it is named by a continuation, which carries the row as the handler last
    read it. */
module CoordinatorSpec {
  import opened Basics
  import opened TransactionContract

  type ShardId = string

  datatype RecoveryAction = ReserveAction | FinalizeAction | CancelAction | CommitAction | AbortAction | ReleaseAction

  datatype QueueRow = QueueRow(action: RecoveryAction, nextAttemptAt: int, attempts: nat)

  datatype PhaseStatus = PhasePending | PhasePrepared | PhaseCommitted

  /** The error codes a parked or quarantined transaction stores. */
  datatype ErrorCode = ManifestQuarantined | ManifestReservationConflict | OtherError

  /** The transaction row. The two request flags say whether the immutable finalize and
      cancel requests are stored, the third whether the finalized record is. */
  datatype TxRow = TxRow(
    state: TxState, decision: Decision, phases: map<ShardId, PhaseStatus>,
    finalizeRequest: bool, cancelRequest: bool, manifestRecord: bool, lastError: Option<ErrorCode>)
  {
    function Participants(): set<ShardId> { phases.Keys }
  }

  datatype Durable = Durable(tx: Option<TxRow>, queue: Option<QueueRow>)

  // ---- replies of the control plane ----

  datatype ReserveResult = ReserveOk | ReserveUnavailable | ReserveQuarantined(code: ErrorCode)
    | ReserveRejected(absent: bool, bucketRowMayExist: bool, code: ErrorCode)

  predicate RejectedAbsent(r: ReserveResult) { r.ReserveRejected? && r.absent && !r.bucketRowMayExist }

  datatype CancelResult = CancelOk | CancelUnavailable | CancelParked(code: ErrorCode) | CancelRejected(code: ErrorCode)

  datatype FinalizeResult = FinalizeOk | FinalizeUnavailable | FinalizeRejected(code: ErrorCode)

  datatype Resolution = ResolvedFinalized | ResolvedCancelled

  // ---- continuations ----

  datatype Cont =
    | Begin(participants: set<ShardId>)
    | Resume(row: TxRow)
    | ReserveReply
    | SendPrepare(row: TxRow)
    | PrepareReplies
    | DecideAbort
    | ReconcileAbort(row: TxRow)
    | AbortReplies
    | Cancel(row: TxRow)
    | CancelReserveReply
    | CancelReply
    | DecideCommit
    | Finalize(row: TxRow)
    | FinalizeReply(state: TxState)
    | FinalizeRecord(state: TxState)
    | Commit(row: TxRow)
    | CommitReplies
    | CommitRecord(acked: set<ShardId>)
    | ForceAbort(row: TxRow)
    | Resolve(row: TxRow)
    | ReleaseReply

  /** The durable state after a stretch, and the continuation if the handler goes on. */
  datatype Step = Step(d: Durable, next: Option<Cont>)

  function Done(d: Durable): Step { Step(d, None) }
  function Go(d: Durable, c: Cont): Step { Step(d, Some(c)) }

  // ---- the recovery queue ----

  const RECOVERY_BASE_DELAY_MS := 5000
  const RECOVERY_MAX_DELAY_MS := 60000

  function BackoffDelay(priorAttempt: nat): nat {
    var raw := RECOVERY_BASE_DELAY_MS * Pow2(if priorAttempt < 10 then priorAttempt else 10);
    if raw < RECOVERY_MAX_DELAY_MS then raw else RECOVERY_MAX_DELAY_MS
  }

  function PriorAttempts(q: Option<QueueRow>): nat { if q.Some? then q.value.attempts else 0 }

  /** reschedule: one more attempt, unless a guard names states and the row left them. */
  function Rescheduled(d: Durable, action: RecoveryAction, guarded: bool, onlyWhile: set<TxState>, now: int): Durable {
    if guarded && (d.tx.None? || d.tx.value.state !in onlyWhile) then d
    else d.(queue := Some(QueueRow(action, now + BackoffDelay(PriorAttempts(d.queue)), PriorAttempts(d.queue) + 1)))
  }

  function Queued(action: RecoveryAction, now: int): Option<QueueRow> { Some(QueueRow(action, now, 0)) }

  // ---- the stretches ----

  function Inserted(participants: set<ShardId>, now: int): Durable {
    Durable(
      Some(TxRow(ManifestReserving, Undecided, map s | s in participants :: PhasePending, false, false, false, None)),
      Queued(ReserveAction, now))
  }

  /** handleBegin's insert; a row that appeared meanwhile is resumed instead. */
  function OnBegin(d: Durable, participants: set<ShardId>, now: int): Step {
    if d.tx.Some? then Go(d, Resume(d.tx.value))
    else Go(Inserted(participants, now), Resume(Inserted(participants, now).tx.value))
  }

  /** resume: where a row in this state continues. */
  function OnResume(d: Durable, row: TxRow): Step {
    match row.state
    case ManifestReserving => Go(d, ReserveReply)
    case CommitDeciding => Go(d, Finalize(row))
    case AbortedPendingManifestCancel => Go(d, Cancel(row))
    case Preparing => Go(d, SendPrepare(row))
    case Prepared => Go(d, DecideCommit)
    case AbortDecided => Go(d, ReconcileAbort(row))
    case Aborting => Go(d, ReconcileAbort(row))
    case CommitPendingManifest => if row.finalizeRequest then Go(d, Finalize(row)) else Done(d)
    case ManifestRegistered => Go(d, Commit(row))
    case Committing => Go(d, Commit(row))
    case CommittedPendingAck => Go(d, Commit(row))
    case _ => Done(d)
  }

  function OnReserveReply(d: Durable, result: ReserveResult, now: int): Step
    requires d.tx.Some?
  {
    var t := d.tx.value;
    if t.state != ManifestReserving then Go(d, Resume(t))
    else match result
      case ReserveUnavailable => Done(Rescheduled(d, ReserveAction, true, {ManifestReserving}, now))
      case ReserveOk => Go(Durable(Some(t.(state := Preparing)), None), SendPrepare(t.(state := Preparing)))
      case ReserveQuarantined(_) => Go(d, DecideAbort)
      case ReserveRejected(_, _, code) =>
        if RejectedAbsent(result) then Done(Durable(Some(t.(state := Aborted, decision := DecidedAbort, lastError := Some(code))), None))
        else Go(d, DecideAbort)
  }

  /** prepare, once every participant has answered or failed. */
  function OnPrepareReplies(d: Durable, allOk: bool): Step
    requires d.tx.Some?
  {
    var t := d.tx.value;
    if !allOk then (if CommitDecidedOrLater(t.state) then Go(d, Resume(t)) else Go(d, DecideAbort))
    else if t.state == Preparing then
      var t' := t.(state := Prepared, phases := map s | s in t.phases :: PhasePrepared);
      Go(d.(tx := Some(t')), Resume(t'))
    else Go(d, Resume(t))
  }

  /** persistAbortDecision's compare-and-set; a lost race throws unless the abort won. */
  function OnDecideAbort(d: Durable, now: int): Step
    requires d.tx.Some?
  {
    var t := d.tx.value;
    if t.state in {ManifestReserving, Preparing, Prepared} then
      var t' := t.(state := AbortDecided, decision := DecidedAbort, cancelRequest := true);
      Go(Durable(Some(t'), Queued(AbortAction, now)), ReconcileAbort(t'))
    else if AbortDecidedOrLater(t.state) then Go(d, ReconcileAbort(t))
    else Done(d)
  }

  /** reconcileAbort up to the abort messages; `AbortReplies` as the continuation means
      they are on their way. */
  function OnReconcileAbort(d: Durable, row: TxRow): Step
    requires d.tx.Some?
  {
    var t := d.tx.value;
    match row.state
    case AbortDecided =>
      if t.state == AbortDecided then Go(d.(tx := Some(t.(state := Aborting))), AbortReplies) else Go(d, Resume(t))
    case AbortedPendingManifestCancel => Go(d, Cancel(row))
    case Aborting => Go(d, AbortReplies)
    case _ => Done(d)
  }

  function OnAbortReplies(d: Durable, allAcknowledged: bool, now: int): Step
    requires d.tx.Some?
  {
    var t := d.tx.value;
    if !allAcknowledged then Done(Rescheduled(d, AbortAction, false, {}, now))
    else if t.state == Aborting then
      var t' := t.(state := AbortedPendingManifestCancel);
      Go(Durable(Some(t'), Queued(CancelAction, now)), Cancel(t'))
    else Go(d, Resume(t))
  }

  predicate AuditedPark(row: TxRow) {
    row.lastError == Some(ManifestQuarantined) || row.lastError == Some(ManifestReservationConflict)
  }

  /** reconcileCancelOnce up to the replayed reservation. */
  function OnCancel(d: Durable, row: TxRow): Step {
    if row.state == Aborted then Done(d)
    else if row.state != AbortedPendingManifestCancel then Go(d, Resume(row))
    else if d.queue.None? && AuditedPark(row) then Done(d)
    else Go(d, CancelReserveReply)
  }

  function Parked(d: Durable, code: ErrorCode): Durable
    requires d.tx.Some?
  {
    Durable(Some(d.tx.value.(lastError := Some(code))), None)
  }

  function OnCancelReserveReply(d: Durable, result: ReserveResult, now: int): Step
    requires d.tx.Some?
  {
    var t := d.tx.value;
    if t.state != AbortedPendingManifestCancel then Go(d, Resume(t))
    else if result.ReserveUnavailable? then Done(Rescheduled(d, CancelAction, true, {AbortedPendingManifestCancel}, now))
    else if result.ReserveQuarantined? then Done(Parked(d, result.code))
    else if RejectedAbsent(result) then Done(Durable(Some(t.(state := Aborted)), None))
    else Go(d, CancelReply)
  }

  function OnCancelReply(d: Durable, result: CancelResult, now: int): Step
    requires d.tx.Some?
  {
    var t := d.tx.value;
    if t.state != AbortedPendingManifestCancel then Go(d, Resume(t))
    else match result
      case CancelUnavailable => Done(Rescheduled(d, CancelAction, true, {AbortedPendingManifestCancel}, now))
      case CancelParked(code) => Done(Parked(d, code))
      case CancelRejected(code) =>
        Done(Durable(Some(t.(state := Quarantined, decision := DecidedQuarantined, lastError := Some(code))), None))
      case CancelOk => Done(Durable(Some(t.(state := Aborted)), None))
  }

  /** persistCommitDeciding's compare-and-set. */
  function OnDecideCommit(d: Durable, now: int): Step
    requires d.tx.Some?
  {
    var t := d.tx.value;
    if t.state == Prepared then
      var t' := t.(state := CommitDeciding, decision := DecidedCommit, finalizeRequest := true);
      Go(Durable(Some(t'), Queued(FinalizeAction, now)), Finalize(t'))
    else if CommitDecidedOrLater(t.state) then Go(d, Finalize(t))
    else Done(d)
  }

  function OnFinalize(d: Durable, row: TxRow): Step {
    if row.state != CommitDeciding && row.state != CommitPendingManifest then Go(d, Resume(row))
    else if !row.finalizeRequest then Done(d)
    else Go(d, FinalizeReply(row.state))
  }

  function OnFinalizeReply(d: Durable, state: TxState, result: FinalizeResult, now: int): Step
    requires d.tx.Some? && state in {CommitDeciding, CommitPendingManifest}
  {
    var t := d.tx.value;
    if t.state != state then Go(d, Resume(t))
    else match result
      case FinalizeUnavailable =>
        Done(Rescheduled(d.(tx := Some(t.(state := CommitPendingManifest))), FinalizeAction, true, {CommitDeciding, CommitPendingManifest}, now))
      case FinalizeRejected(code) =>
        Done(Durable(Some(t.(state := Quarantined, decision := DecidedQuarantined, lastError := Some(code))), None))
      case FinalizeOk => Go(d, FinalizeRecord(state))
  }

  /** The record has been checked against the stored request; store it if the row is
      still where it was. */
  function OnFinalizeRecord(d: Durable, state: TxState, now: int): Step
    requires d.tx.Some? && state in {CommitDeciding, CommitPendingManifest}
  {
    var t := d.tx.value;
    if t.state != state then Go(d, Resume(t))
    else
      var t' := t.(state := ManifestRegistered, manifestRecord := true);
      Go(Durable(Some(t'), Queued(CommitAction, now)), Commit(t'))
  }

  /** reconcileCommitOnce up to the commit messages; `CommitReplies` means they are on
      their way. */
  function OnCommit(d: Durable, row: TxRow): Step
    requires d.tx.Some?
  {
    var t := d.tx.value;
    match row.state
    case ManifestRegistered =>
      if t.state == ManifestRegistered then Go(d.(tx := Some(t.(state := Committing))), CommitReplies) else Go(d, Commit(t))
    case Committing => Go(d, CommitReplies)
    case CommittedPendingAck => Go(d, CommitReplies)
    case Committed => Done(d)
    case _ => Go(d, Resume(row))
  }

  function Acknowledged(phases: map<ShardId, PhaseStatus>, acked: set<ShardId>): map<ShardId, PhaseStatus> {
    map s | s in phases :: if s in acked then PhaseCommitted else phases[s]
  }

  /** Recording the acknowledgements that came back. */
  function OnCommitRecord(d: Durable, acked: set<ShardId>, now: int): Step
    requires d.tx.Some?
  {
    var t := d.tx.value;
    var all := t.Participants() <= acked;
    var next := if all then Committed else CommittedPendingAck;
    if t.state == Committed then Done(d)
    else if t.state != Committing && t.state != CommittedPendingAck then Go(d, Resume(t))
    else
      var t' := t.(state := next, phases := Acknowledged(t.phases, acked));
      if all then Done(Durable(Some(t'), Queued(ReleaseAction, now)))
      else
        var queue := if t.state == next then d.queue else Queued(CommitAction, now);
        Done(Rescheduled(Durable(Some(t'), queue), CommitAction, true, {Committing, CommittedPendingAck}, now))
  }

  function OnForceAbort(d: Durable, row: TxRow): Step {
    if CommitDecidedOrLater(row.state) || row.state == Quarantined || row.state == Aborted then Done(d)
    else if row.state == AbortedPendingManifestCancel then Go(d, Cancel(row))
    else if row.state in {AbortDecided, Aborting} then Go(d, ReconcileAbort(row))
    else Go(d, DecideAbort)
  }

  /** Nothing the resolution was authorized against has changed since `row` was read. */
  predicate SameAuthorization(t: TxRow, row: TxRow) {
    t.state == row.state && t.decision == row.decision
    && t.finalizeRequest == row.finalizeRequest && t.cancelRequest == row.cancelRequest
  }

  /** handleResolveManifestQuarantine after the resolution service answered. The service
      names the resolution; the code branches on what it says. */
  function OnResolve(d: Durable, row: TxRow, resolution: Resolution, now: int): Step
    requires d.tx.Some?
  {
    var t := d.tx.value;
    if resolution == ResolvedFinalized then
      if !row.finalizeRequest || !SameAuthorization(t, row) then Done(d)
      else
        var next := if CommitAuthorized(t.state) then t.state else ManifestRegistered;
        if !Allowed(t.state, next) then Done(d)
        else
          var t' := t.(state := next, decision := DecidedCommit, manifestRecord := true, lastError := None);
          Go(Durable(Some(t'), if next == ManifestRegistered then Queued(CommitAction, now) else d.queue), Commit(t'))
    else
      if !SameAuthorization(t, row) then Done(d)
      else
        var next := if t.state in {AbortDecided, Aborting} then t.state else Aborted;
        if !Allowed(t.state, next) then Done(d)
        else
          var t' := t.(state := next, decision := DecidedAbort, lastError := None);
          if next == Aborted then Done(Durable(Some(t'), None))
          else Go(Durable(Some(t'), Queued(AbortAction, now)), ReconcileAbort(t'))
  }

  /** The alarm's second look after its awaits: the very work it read is still queued, and due. */
  predicate StillDue(d: Durable, work: QueueRow, now: int) {
    d.queue.Some? && d.queue.value.action == work.action && d.queue.value.nextAttemptAt == work.nextAttemptAt && work.nextAttemptAt <= now
  }

  /** The alarm's error path: reschedule whatever action it had read. */
  function OnAlarmFailed(d: Durable, action: RecoveryAction, now: int): Durable { Rescheduled(d, action, false, {}, now) }

  /** reconcileManifestReleaseOnce after the release call. */
  function OnReleaseReply(d: Durable, ok: bool, quarantined: Option<ErrorCode>, now: int): Durable {
    if ok then d.(queue := None)
    else
      var d' := if quarantined.Some? && d.tx.Some? then d.(tx := Some(d.tx.value.(lastError := quarantined))) else d;
      Rescheduled(d', ReleaseAction, false, {}, now)
  }
}
