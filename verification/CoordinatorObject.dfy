/** The coordinator object itself: a transaction row and a recovery row that its handlers
    move one uninterrupted stretch at a time. Each method is one stretch and is specified
    by the matching function of CoordinatorSpec. */
module CoordinatorObject {
  import opened Basics
  import opened TransactionContract
  import opened CoordinatorSpec

  /** What the compare-and-set answers. */
  datatype TransitionResult = Moved | CasLost(actual: TxState) | Forbidden(from: TxState)

  datatype Dispatch = Idle | Rearm(at: int) | DispatchRelease | DispatchResume

  /** The exponent's cap at 10 is invisible: the delay is the smaller of 5 s doubled per
      earlier attempt and 60 s, for every attempt count. */
  lemma {:induction false} BackoffIsCappedDoubling(n: nat)
    ensures BackoffDelay(n) == (if 5000 * Pow2(n) < 60000 then 5000 * Pow2(n) else 60000)
    ensures BackoffDelay(n) <= 60000
  {
    if n <= 4 {
      assert Pow2(0) == 1 && Pow2(1) == 2 && Pow2(2) == 4 && Pow2(3) == 8 && Pow2(4) == 16;
    } else {
      Pow2Grows(4, n);
      Pow2Grows(4, 10);
      assert Pow2(4) == 16;
      if n < 10 {} else { assert BackoffDelay(n) == BackoffDelay(10); }
    }
  }

  lemma {:induction false} Pow2Grows(m: nat, n: nat)
    requires m <= n
    ensures Pow2(m) <= Pow2(n)
  {
    if m < n { Pow2Grows(m, n - 1); }
  }

  class Coordinator {
    var tx: Option<TxRow>
    var queue: Option<QueueRow>

    constructor ()
      ensures View() == Durable(None, None)
    {
      tx, queue := None, None;
    }

    function View(): Durable
      reads this
    {
      Durable(tx, queue)
    }

    // ---- the primitives ----

    method QueueRecovery(action: RecoveryAction, at: int, attempts: nat)
      modifies this`queue
      ensures queue == Some(QueueRow(action, at, attempts))
    {
      queue := Some(QueueRow(action, at, attempts));
    }

    /** Compare and set the state; the row changes only when the state is one of
        `expected` and the contract allows the step. */
    method Transition(expected: set<TxState>, next: TxState) returns (r: TransitionResult)
      requires tx.Some?
      modifies this`tx
      ensures tx.Some?
      ensures r.Moved? <==> old(tx).value.state in expected && Allowed(old(tx).value.state, next)
      ensures r.CasLost? <==> old(tx).value.state !in expected
      ensures tx.value == if r.Moved? then old(tx).value.(state := next) else old(tx).value
      ensures r.CasLost? ==> r.actual == tx.value.state
      ensures r.Forbidden? ==> r.from == tx.value.state
    {
      var current := tx.value.state;
      if current !in expected { return CasLost(current); }
      if !Allowed(current, next) { return Forbidden(current); }
      tx := Some(tx.value.(state := next));
      return Moved;
    }

    /** The attempt count comes from the stored row, so it only ever grows by one; the
        delay never exceeds 60 s. */
    method Reschedule(action: RecoveryAction, onlyWhile: Option<set<TxState>>, now: int) returns (scheduled: bool)
      modifies this`queue
      ensures scheduled <==> onlyWhile.None? || (tx.Some? && tx.value.state in onlyWhile.value)
      ensures scheduled ==> queue.Some? && queue.value.action == action && queue.value.attempts == PriorAttempts(old(queue)) + 1
      ensures scheduled ==> now <= queue.value.nextAttemptAt <= now + 60000
      ensures View() == Rescheduled(old(View()), action, onlyWhile.Some?, if onlyWhile.Some? then onlyWhile.value else {}, now)
    {
      if onlyWhile.Some? && (tx.None? || tx.value.state !in onlyWhile.value) { return false; }
      var prior := if queue.Some? then queue.value.attempts else 0;
      BackoffIsCappedDoubling(prior);
      QueueRecovery(action, now + BackoffDelay(prior), prior + 1);
      return true;
    }

    // ---- begin and prepare ----

    method Begin(participants: set<ShardId>, now: int) returns (next: Option<Cont>)
      modifies this
      ensures Step(View(), next) == OnBegin(old(View()), participants, now)
    {
      if tx.None? {
        var phases := map s | s in participants :: PhasePending;
        tx := Some(TxRow(ManifestReserving, Undecided, phases, false, false, false, None));
        QueueRecovery(ReserveAction, now, 0);
      }
      next := Some(Resume(tx.value));
    }

    method ReconcileReservation(result: ReserveResult, now: int) returns (next: Option<Cont>)
      requires tx.Some?
      modifies this
      ensures Step(View(), next) == OnReserveReply(old(View()), result, now)
    {
      if tx.value.state != ManifestReserving { return Some(Resume(tx.value)); }
      if result.ReserveUnavailable? {
        var _ := Reschedule(ReserveAction, Some({ManifestReserving}), now);
        return None;
      }
      if result.ReserveOk? {
        var moved := Transition({ManifestReserving}, Preparing);
        queue := None;
        return Some(SendPrepare(tx.value));
      }
      if result.ReserveRejected? && result.absent && !result.bucketRowMayExist {
        var moved := Transition({ManifestReserving}, Aborted);
        tx := Some(tx.value.(decision := DecidedAbort, lastError := Some(result.code)));
        queue := None;
        return None;
      }
      return Some(DecideAbort);
    }

    method RecordPrepared(allOk: bool) returns (next: Option<Cont>)
      requires tx.Some?
      modifies this
      ensures Step(View(), next) == OnPrepareReplies(old(View()), allOk)
    {
      if !allOk {
        if CommitDecidedOrLater(tx.value.state) { return Some(Resume(tx.value)); }
        return Some(DecideAbort);
      }
      var moved := Transition({Preparing}, Prepared);
      if moved.Moved? {
        tx := Some(tx.value.(phases := map s | s in tx.value.phases :: PhasePrepared));
      }
      return Some(Resume(tx.value));
    }

    // ---- abort ----

    method PersistAbortDecision(now: int) returns (next: Option<Cont>)
      requires tx.Some?
      modifies this
      ensures Step(View(), next) == OnDecideAbort(old(View()), now)
    {
      var moved := Transition({ManifestReserving, Preparing, Prepared}, AbortDecided);
      if moved.Moved? {
        tx := Some(tx.value.(decision := DecidedAbort, cancelRequest := true));
        QueueRecovery(AbortAction, now, 0);
        return Some(ReconcileAbort(tx.value));
      }
      if AbortDecidedOrLater(tx.value.state) { return Some(ReconcileAbort(tx.value)); }
      return None;
    }

    method StartAbort(row: TxRow) returns (next: Option<Cont>)
      requires tx.Some?
      modifies this
      ensures Step(View(), next) == OnReconcileAbort(old(View()), row)
    {
      if row.state == AbortDecided {
        var moved := Transition({AbortDecided}, Aborting);
        if !moved.Moved? { return Some(Resume(tx.value)); }
        return Some(AbortReplies);
      }
      if row.state == AbortedPendingManifestCancel { return Some(Cancel(row)); }
      if row.state == Aborting { return Some(AbortReplies); }
      return None;
    }

    method RecordAborts(allAcknowledged: bool, now: int) returns (next: Option<Cont>)
      requires tx.Some?
      modifies this
      ensures Step(View(), next) == OnAbortReplies(old(View()), allAcknowledged, now)
    {
      if !allAcknowledged {
        var _ := Reschedule(AbortAction, None, now);
        return None;
      }
      var moved := Transition({Aborting}, AbortedPendingManifestCancel);
      if !moved.Moved? { return Some(Resume(tx.value)); }
      QueueRecovery(CancelAction, now, 0);
      return Some(Cancel(tx.value));
    }

    method CancelReservationReply(result: ReserveResult, now: int) returns (next: Option<Cont>)
      requires tx.Some?
      modifies this
      ensures Step(View(), next) == OnCancelReserveReply(old(View()), result, now)
    {
      if tx.value.state != AbortedPendingManifestCancel { return Some(Resume(tx.value)); }
      if result.ReserveUnavailable? {
        var _ := Reschedule(CancelAction, Some({AbortedPendingManifestCancel}), now);
        return None;
      }
      if result.ReserveQuarantined? {
        tx, queue := Some(tx.value.(lastError := Some(result.code))), None;
        return None;
      }
      if result.ReserveRejected? && result.absent && !result.bucketRowMayExist {
        var moved := Transition({AbortedPendingManifestCancel}, Aborted);
        queue := None;
        return None;
      }
      return Some(CancelReply);
    }

    method CancelManifestReply(result: CancelResult, now: int) returns (next: Option<Cont>)
      requires tx.Some?
      modifies this
      ensures Step(View(), next) == OnCancelReply(old(View()), result, now)
    {
      if tx.value.state != AbortedPendingManifestCancel { return Some(Resume(tx.value)); }
      next := None;
      match result
      case CancelUnavailable =>
        var _ := Reschedule(CancelAction, Some({AbortedPendingManifestCancel}), now);
      case CancelParked(code) =>
        tx, queue := Some(tx.value.(lastError := Some(code))), None;
      case CancelRejected(code) =>
        var moved := Transition({AbortedPendingManifestCancel}, Quarantined);
        tx, queue := Some(tx.value.(decision := DecidedQuarantined, lastError := Some(code))), None;
      case CancelOk =>
        var moved := Transition({AbortedPendingManifestCancel}, Aborted);
        queue := None;
    }

    // ---- commit ----

    method PersistCommitDeciding(now: int) returns (next: Option<Cont>)
      requires tx.Some?
      modifies this
      ensures Step(View(), next) == OnDecideCommit(old(View()), now)
    {
      var moved := Transition({Prepared}, CommitDeciding);
      if moved.Moved? {
        tx := Some(tx.value.(decision := DecidedCommit, finalizeRequest := true));
        QueueRecovery(FinalizeAction, now, 0);
        return Some(Finalize(tx.value));
      }
      if CommitDecidedOrLater(tx.value.state) { return Some(Finalize(tx.value)); }
      return None;
    }

    method FinalizeManifestReply(state: TxState, result: FinalizeResult, now: int) returns (next: Option<Cont>)
      requires tx.Some? && state in {CommitDeciding, CommitPendingManifest}
      modifies this
      ensures Step(View(), next) == OnFinalizeReply(old(View()), state, result, now)
    {
      if tx.value.state != state { return Some(Resume(tx.value)); }
      match result
      case FinalizeUnavailable =>
        if state == CommitDeciding {
          var moved := Transition({CommitDeciding}, CommitPendingManifest);
        }
        var _ := Reschedule(FinalizeAction, Some({CommitDeciding, CommitPendingManifest}), now);
        return None;
      case FinalizeRejected(code) =>
        var moved := Transition({state}, Quarantined);
        tx, queue := Some(tx.value.(decision := DecidedQuarantined, lastError := Some(code))), None;
        return None;
      case FinalizeOk => return Some(FinalizeRecord(state));
    }

    method RegisterRecord(state: TxState, now: int) returns (next: Option<Cont>)
      requires tx.Some? && state in {CommitDeciding, CommitPendingManifest}
      modifies this
      ensures Step(View(), next) == OnFinalizeRecord(old(View()), state, now)
    {
      var moved := Transition({state}, ManifestRegistered);
      if !moved.Moved? { return Some(Resume(tx.value)); }
      tx := Some(tx.value.(manifestRecord := true));
      QueueRecovery(CommitAction, now, 0);
      return Some(Commit(tx.value));
    }

    method StartCommit(row: TxRow) returns (next: Option<Cont>)
      requires tx.Some?
      modifies this
      ensures Step(View(), next) == OnCommit(old(View()), row)
    {
      if row.state == ManifestRegistered {
        var moved := Transition({ManifestRegistered}, Committing);
        if !moved.Moved? { return Some(Commit(tx.value)); }
        return Some(CommitReplies);
      }
      if row.state == Committed { return None; }
      if row.state != Committing && row.state != CommittedPendingAck { return Some(Resume(row)); }
      return Some(CommitReplies);
    }

    /** Recording acknowledgements; a stale answer converges on what the row already
        says, and an unfinished commit goes back to the queue with one more attempt. */
    method RecordCommits(acked: set<ShardId>, now: int) returns (next: Option<Cont>)
      requires tx.Some?
      modifies this
      ensures Step(View(), next) == OnCommitRecord(old(View()), acked, now)
    {
      var all := tx.value.Participants() <= acked;
      var nextState := if all then Committed else CommittedPendingAck;
      var latest := tx.value.state;
      if latest == Committed { return None; }
      if latest != Committing && latest != CommittedPendingAck { return Some(Resume(tx.value)); }
      if latest != nextState {
        var moved := Transition({Committing, CommittedPendingAck}, nextState);
      }
      tx := Some(tx.value.(phases := Acknowledged(tx.value.phases, acked)));
      if all {
        QueueRecovery(ReleaseAction, now, 0);
      } else {
        if latest != nextState { QueueRecovery(CommitAction, now, 0); }
        var _ := Reschedule(CommitAction, Some({Committing, CommittedPendingAck}), now);
      }
      return None;
    }

    // ---- the alarm and quarantine repair ----

    /** The alarm acts on the work it read before its awaits only if that very work is
        still queued and due. */
    method AlarmDispatch(work: QueueRow, now: int) returns (dispatch: Dispatch)
      ensures dispatch.DispatchRelease? || dispatch.DispatchResume? <==>
        StillDue(View(), work, now)
      ensures dispatch.DispatchRelease? ==> queue.value.action == ReleaseAction
      ensures dispatch.DispatchResume? ==> queue.value.action != ReleaseAction
      ensures dispatch.Rearm? ==> queue.Some? && dispatch.at >= now && dispatch.at >= queue.value.nextAttemptAt
      ensures dispatch.Idle? <==> queue.None?
    {
      if queue.None? { return Idle; }
      var still := queue.value;
      if still.action != work.action || still.nextAttemptAt != work.nextAttemptAt {
        return Rearm(if now < still.nextAttemptAt then still.nextAttemptAt else now);
      }
      if still.nextAttemptAt > now { return Rearm(still.nextAttemptAt); }
      return if work.action == ReleaseAction then DispatchRelease else DispatchResume;
    }

    /** The failed action is queued again, whatever has been queued since. */
    method AlarmError(work: QueueRow, now: int)
      modifies this
      ensures View() == OnAlarmFailed(old(View()), work.action, now)
      ensures tx == old(tx) && queue.Some? && queue.value.action == work.action && queue.value.nextAttemptAt <= now + 60000
    {
      var _ := Reschedule(work.action, None, now);
    }

    /** The release leaves the queue only when it is acknowledged, and moves no state. */
    method RecordRelease(ok: bool, quarantined: Option<ErrorCode>, now: int)
      modifies this
      ensures View() == OnReleaseReply(old(View()), ok, quarantined, now)
      ensures ok <==> queue.None?
      ensures !ok ==> queue.value.action == ReleaseAction && queue.value.nextAttemptAt <= now + 60000
      ensures tx.Some? == old(tx).Some? && (tx.Some? ==> tx.value.state == old(tx).value.state && tx.value.decision == old(tx).value.decision)
    {
      if ok { queue := None; return; }
      if quarantined.Some? && tx.Some? { tx := Some(tx.value.(lastError := quarantined)); }
      var _ := Reschedule(ReleaseAction, None, now);
    }

    /** A finalized manifest never commits what was decided to abort. */
    method ResolveFinalized(row: TxRow, now: int) returns (next: Option<Cont>)
      requires tx.Some?
      modifies this
      ensures Step(View(), next) == OnResolve(old(View()), row, ResolvedFinalized, now)
      ensures AbortDecidedOrLater(old(tx).value.state) ==> View() == old(View()) && next.None?
      ensures next.Some? ==> tx.Some? && CommitAuthorized(tx.value.state) && tx.value.decision == DecidedCommit
    {
      var t := tx.value;
      if !row.finalizeRequest || !SameAuthorization(t, row) { return None; }
      var nextState := if CommitAuthorized(t.state) then t.state else ManifestRegistered;
      if !Allowed(t.state, nextState) { return None; }
      tx := Some(t.(state := nextState, decision := DecidedCommit, manifestRecord := true, lastError := None));
      if nextState == ManifestRegistered { QueueRecovery(CommitAction, now, 0); }
      return Some(Commit(tx.value));
    }

    /** A cancelled manifest never aborts what was decided to commit. */
    method ResolveCancelled(row: TxRow, now: int) returns (next: Option<Cont>)
      requires tx.Some?
      modifies this
      ensures Step(View(), next) == OnResolve(old(View()), row, ResolvedCancelled, now)
      ensures CommitDecidedOrLater(old(tx).value.state) ==> View() == old(View()) && next.None?
      ensures next.Some? ==> tx.Some? && AbortDecidedOrLater(tx.value.state) && tx.value.decision == DecidedAbort && queue.Some?
    {
      var t := tx.value;
      if !SameAuthorization(t, row) { return None; }
      var nextState := if t.state in {AbortDecided, Aborting} then t.state else Aborted;
      if !Allowed(t.state, nextState) { return None; }
      tx := Some(t.(state := nextState, decision := DecidedAbort, lastError := None));
      if nextState == Aborted { queue := None; return None; }
      QueueRecovery(AbortAction, now, 0);
      return Some(ReconcileAbort(tx.value));
    }
  }
}
