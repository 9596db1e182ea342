/** What the coordinator's durable row and queue tell an operator: the queue names the work
    that is left, work that failed waits longer and longer, and a transaction that stops
    says why. */
module TwoPhaseRecords {
  import opened Basics
  import opened TransactionContract
  import opened CoordinatorSpec
  import opened TwoPhaseCommit
  import opened TwoPhaseEnds

  /** The action is the work that is left in this state. */
  predicate Names(action: RecoveryAction, t: TxRow) {
    match action
    case ReserveAction => t.state == ManifestReserving
    case FinalizeAction => t.state in {CommitDeciding, CommitPendingManifest}
    case CommitAction => t.state in {ManifestRegistered, Committing, CommittedPendingAck}
    case ReleaseAction => t.state == Committed
    case CancelAction => t.state == AbortedPendingManifestCancel
    case AbortAction => t.cancelRequest && !t.finalizeRequest
  }

  predicate NewWorkIsNamed(d: Durable, d': Durable) {
    d'.queue != d.queue && d'.queue.Some? ==> d'.tx.Some? && Names(d'.queue.value.action, d'.tx.value)
  }

  lemma AbortSideNames(s: Sys, c: Cont, input: Input, now: int)
    requires Live(s) && c in s.conts
    requires c.DecideAbort? || c.AbortReplies? || c.CancelReserveReply? || c.CancelReply? || c.ReconcileAbort? || c.Cancel? || c.ForceAbort?
    ensures NewWorkIsNamed(s.d, RunStep(s, c, input, now).d)
  {
    assert ContOk(c, s.d);
  }

  lemma CommitSideNames(s: Sys, c: Cont, input: Input, now: int)
    requires Live(s) && c in s.conts
    requires c.DecideCommit? || c.Finalize? || c.FinalizeReply? || c.FinalizeRecord?
    ensures NewWorkIsNamed(s.d, RunStep(s, c, input, now).d)
  {
  }

  lemma SendingNames(s: Sys, c: Cont, input: Input, now: int)
    requires Live(s) && c in s.conts && (c.Commit? || c.CommitReplies? || c.CommitRecord?)
    ensures NewWorkIsNamed(s.d, RunStep(s, c, input, now).d)
  {
  }

  lemma ResolutionNames(s: Sys, c: Cont, input: Input, now: int)
    requires Live(s) && c in s.conts && c.Resolve?
    ensures NewWorkIsNamed(s.d, RunStep(s, c, input, now).d)
  {
  }

  lemma RestNames(s: Sys, c: Cont, input: Input, now: int)
    requires Live(s) && c in s.conts
    requires c.Begin? || c.Resume? || c.ReserveReply? || c.SendPrepare? || c.PrepareReplies? || c.ReleaseReply?
    ensures NewWorkIsNamed(s.d, RunStep(s, c, input, now).d)
  {
    assert ContOk(c, s.d);
  }

  lemma RunNames(s: Sys, c: Cont, input: Input, now: int)
    requires Live(s) && c in s.conts
    ensures NewWorkIsNamed(s.d, RunStep(s, c, input, now).d)
  {
    if c.Resolve? { ResolutionNames(s, c, input, now); }
    else if c.Begin? || c.Resume? || c.ReserveReply? || c.SendPrepare? || c.PrepareReplies? || c.ReleaseReply? { RestNames(s, c, input, now); }
    else if c.DecideCommit? || c.Finalize? || c.FinalizeReply? || c.FinalizeRecord? { CommitSideNames(s, c, input, now); }
    else if c.Commit? || c.CommitReplies? || c.CommitRecord? { SendingNames(s, c, input, now); }
    else { AbortSideNames(s, c, input, now); }
  }

  lemma InitIsLive()
    ensures Live(Init)
  {
  }

  /** In every run, whatever any event but the error path of an alarm puts into the queue is
      the work that is left of the transaction at that moment. */
  lemma {:induction false} QueueNamesItsWork(run: seq<(Event, int)>, e: Event, now: int)
    requires !e.AlarmFailed?
    ensures NewWorkIsNamed(After(run).d, Next(After(run), e, now).d)
  {
    InitIsLive();
    FromIsLive(Init, run);
    if e.Run? && e.cont in After(run).conts { RunNames(After(run), e.cont, e.input, now); }
  }

  // ---- work that failed ----

  /** The reply leaves the work undone. */
  predicate Undone(t: TxRow, c: Cont, input: Input) {
    || (c.ReserveReply? && t.state == ManifestReserving && input == Reserved(ReserveUnavailable))
    || (c.AbortReplies? && input == Outcome(false))
    || (c.CancelReserveReply? && t.state == AbortedPendingManifestCancel && input == Reserved(ReserveUnavailable))
    || (c.CancelReply? && t.state == AbortedPendingManifestCancel && input == Cancelled(CancelUnavailable))
    || (c.FinalizeReply? && t.state == c.state && t.state in {CommitDeciding, CommitPendingManifest} && input == Finalized(FinalizeUnavailable))
    || (c.ReleaseReply? && input.Released? && !input.released)
  }

  /** Work that failed is queued with one more attempt, five seconds later after the first
      failure and twice as much after each further one, up to a minute; an unanswered finalize
      leaves the commit pending on its manifest, a refused release stores why, and
      nothing else moves the row. */
  lemma UndoneWorkWaits(s: Sys, c: Cont, input: Input, now: int)
    requires c in s.conts && s.d.tx.Some? && Undone(s.d.tx.value, c, input)
    ensures var q := RunStep(s, c, input, now).d.queue; var failures := if s.d.queue.Some? then s.d.queue.value.attempts else 0;
      && q.Some? && q.value.attempts == failures + 1
      && q.value.nextAttemptAt == now + (if failures >= 4 then 60000 else 5000 * Pow2(failures))
    ensures var t' := RunStep(s, c, input, now).d.tx;
      && t'.Some? && t'.value.lastError == (if c.ReleaseReply? && input.quarantined.Some? then input.quarantined else s.d.tx.value.lastError)
      && t'.value.state == if c.FinalizeReply? then CommitPendingManifest else s.d.tx.value.state
  {
    var failures := PriorAttempts(s.d.queue);
    if failures >= 4 { Pow2AtLeast(if failures < 10 then failures else 10); } else { SmallPowers(failures); }
  }

  lemma Pow2AtLeast(n: nat)
    requires n >= 4
    ensures Pow2(n) >= 16
  {
    if n > 4 { Pow2AtLeast(n - 1); } else { SmallPowers(4); }
  }

  lemma SmallPowers(n: nat)
    requires n <= 4
    ensures Pow2(n) == if n == 0 then 1 else if n == 1 then 2 else if n == 2 then 4 else if n == 3 then 8 else 16
  {
    assert Pow2(0) == 1 && Pow2(1) == 2 && Pow2(2) == 4 && Pow2(3) == 8 && Pow2(4) == 16;
  }

  // ---- transactions that stop ----

  /** The code that the control plane's reply carries. */
  function CodeOf(input: Input): Option<ErrorCode> {
    match input
    case Reserved(ReserveQuarantined(code)) => Some(code)
    case Reserved(ReserveRejected(_, _, code)) => Some(code)
    case Cancelled(CancelParked(code)) => Some(code)
    case Cancelled(CancelRejected(code)) => Some(code)
    case Finalized(FinalizeRejected(code)) => Some(code)
    case _ => None
  }

  /** The transaction is quarantined, is parked, or ends without ever having prepared. */
  predicate Stops(d: Durable, d': Durable) {
    d.tx.Some? && d'.tx.Some? &&
    var before, after := d.tx.value.state, d'.tx.value.state;
    || (before != Quarantined && after == Quarantined)
    || (after == AbortedPendingManifestCancel && d.queue.Some? && d'.queue.None?)
    || (before == ManifestReserving && after == Aborted)
  }

  predicate IsControlReply(c: Cont) { c.ReserveReply? || c.CancelReserveReply? || c.CancelReply? || c.FinalizeReply? }

  lemma RunStopsSayingWhy(s: Sys, c: Cont, input: Input, now: int)
    requires c in s.conts && Stops(s.d, RunStep(s, c, input, now).d) && IsControlReply(c)
    ensures CodeOf(input).Some? && RunStep(s, c, input, now).d.tx.value.lastError == CodeOf(input)
  {
  }

  lemma AbortSideGoesOn(s: Sys, c: Cont, input: Input, now: int)
    requires Live(s) && c in s.conts
    requires c.DecideAbort? || c.ReconcileAbort? || c.AbortReplies? || c.Cancel? || c.ForceAbort? || c.PrepareReplies? || c.SendPrepare? || c.Resume?
    ensures !Stops(s.d, RunStep(s, c, input, now).d)
  {
    assert ContOk(c, s.d);
  }

  lemma OthersGoOn(s: Sys, c: Cont, input: Input, now: int)
    requires Live(s) && c in s.conts
    requires c.Begin? || c.ReleaseReply? || c.Resolve?
    ensures !Stops(s.d, RunStep(s, c, input, now).d)
  {
    assert ContOk(c, s.d);
  }

  lemma CommitSideGoesOn(s: Sys, c: Cont, input: Input, now: int)
    requires Live(s) && c in s.conts
    requires c.DecideCommit? || c.Finalize? || c.FinalizeRecord? || c.Commit? || c.CommitReplies? || c.CommitRecord?
    ensures !Stops(s.d, RunStep(s, c, input, now).d)
  {
  }

  lemma OthersDoNotStop(s: Sys, c: Cont, input: Input, now: int)
    requires Live(s) && c in s.conts && !IsControlReply(c)
    ensures !Stops(s.d, RunStep(s, c, input, now).d)
  {
    if c.DecideAbort? || c.ReconcileAbort? || c.AbortReplies? || c.Cancel? || c.ForceAbort? || c.PrepareReplies? || c.SendPrepare? || c.Resume? {
      AbortSideGoesOn(s, c, input, now);
    } else if c.Begin? || c.ReleaseReply? || c.Resolve? { OthersGoOn(s, c, input, now); }
    else { CommitSideGoesOn(s, c, input, now); }
  }

  /** In every run a transaction that is quarantined, parked or refused at its reservation
      stores the very code it was refused with. */
  lemma {:induction false} StopsSayWhy(run: seq<(Event, int)>, e: Event, now: int)
    requires Stops(After(run).d, Next(After(run), e, now).d)
    ensures e.Run? && CodeOf(e.input).Some? && Next(After(run), e, now).d.tx.value.lastError == CodeOf(e.input)
  {
    InitIsLive();
    FromIsLive(Init, run);
    var s := After(run);
    assert e.Run? && e.cont in s.conts;
    if IsControlReply(e.cont) { RunStopsSayingWhy(s, e.cont, e.input, now); } else { OthersDoNotStop(s, e.cont, e.input, now); }
  }

  /** A resolution changes something only if state, decision and requests are still those it
      was authorized against, and leaves the transaction without an error. */
  lemma ResolvedIsClean(s: Sys, row: TxRow, input: Input, now: int)
    requires Resolve(row) in s.conts && RunStep(s, Resolve(row), input, now).d != s.d
    ensures s.d.tx.Some? && var t := s.d.tx.value; t.state == row.state && t.decision == row.decision && t.finalizeRequest == row.finalizeRequest && t.cancelRequest == row.cancelRequest
    ensures var t := RunStep(s, Resolve(row), input, now).d.tx; t.Some? && t.value.lastError == None && t.value.state != Quarantined
  {
  }

  // ---- the phases of the participants ----

  /** The phase recorded of a participant is one it has acknowledged; prepared means all are
      recorded as prepared, committed all as committed, and none is unknown once a commit
      was decided. */
  ghost predicate PhasesAreTrue(s: Sys) {
    s.d.tx.Some? ==>
      var t := s.d.tx.value;
      && (forall x | x in t.phases :: t.phases[x] == PhasePrepared ==> x in s.prepareAcks)
      && (forall x | x in t.phases :: t.phases[x] == PhaseCommitted ==> x in s.commitAcks)
      && (t.state == Prepared ==> forall x | x in t.phases :: t.phases[x] == PhasePrepared)
      && (t.finalizeRequest ==> forall x | x in t.phases :: t.phases[x] != PhasePending)
      && (t.state == Committed ==> forall x | x in t.phases :: t.phases[x] == PhaseCommitted)
  }

  /** Nothing that the phases are compared with changes, except that requests and states come
      to an abort. */
  predicate PhasesStay(d: Durable, d': Durable) {
    d.tx.Some? && d'.tx.Some? && d'.tx.value.phases == d.tx.value.phases && (d'.tx.value.finalizeRequest ==> d.tx.value.finalizeRequest)
    && (d'.tx.value.state in {Prepared, Committed} ==> d'.tx.value.state == d.tx.value.state)
  }

  lemma AbortSidePhases(s: Sys, c: Cont, input: Input, now: int)
    requires s.d.tx.Some? && c in s.conts
    requires c.DecideAbort? || c.ReconcileAbort? || c.AbortReplies? || c.ForceAbort?
    ensures PhasesStay(s.d, RunStep(s, c, input, now).d)
  {
  }

  lemma CancelPhases(s: Sys, c: Cont, input: Input, now: int)
    requires s.d.tx.Some? && c in s.conts && (c.Cancel? || c.CancelReserveReply? || c.CancelReply?)
    ensures PhasesStay(s.d, RunStep(s, c, input, now).d)
  {
  }

  lemma EarlyPhases(s: Sys, c: Cont, input: Input, now: int)
    requires s.d.tx.Some? && c in s.conts
    requires c.Begin? || c.Resume? || c.ReserveReply? || c.SendPrepare?
    ensures PhasesStay(s.d, RunStep(s, c, input, now).d)
  {
  }

  lemma CommitSidePhases(s: Sys, c: Cont, input: Input, now: int)
    requires s.d.tx.Some? && c in s.conts
    requires c.Finalize? || c.FinalizeReply? || c.FinalizeRecord? || c.Commit? || c.CommitReplies?
    ensures PhasesStay(s.d, RunStep(s, c, input, now).d)
  {
  }

  lemma LatePhases(s: Sys, c: Cont, input: Input, now: int)
    requires s.d.tx.Some? && c in s.conts && c.Resolve?
    ensures PhasesStay(s.d, RunStep(s, c, input, now).d)
  {
  }

  lemma ReleasePhases(s: Sys, c: Cont, input: Input, now: int)
    requires s.d.tx.Some? && c in s.conts && c.ReleaseReply?
    ensures PhasesStay(s.d, RunStep(s, c, input, now).d)
  {
  }

  lemma RecordingPhases(s: Sys, c: Cont, input: Input, now: int)
    requires Live(s) && PhasesAreTrue(s) && c in s.conts && (c.PrepareReplies? || c.DecideCommit?)
    ensures PhasesAreTrue(RunStep(s, c, input, now))
  {
  }

  lemma CommitRecordPhases(s: Sys, c: Cont, input: Input, now: int)
    requires Live(s) && PhasesAreTrue(s) && c in s.conts && c.CommitRecord?
    ensures PhasesAreTrue(RunStep(s, c, input, now))
  {
    assert forall x | x in c.acked :: x in s.commitAcks;
  }

  lemma FirstPhases(s: Sys, c: Cont, input: Input, now: int)
    requires s.d.tx.None? && c in s.conts
    ensures PhasesAreTrue(RunStep(s, c, input, now))
  {
  }

  lemma RunAcks(s: Sys, c: Cont, input: Input, now: int)
    requires c in s.conts
    ensures RunStep(s, c, input, now).prepareAcks == s.prepareAcks && RunStep(s, c, input, now).commitAcks == s.commitAcks
  {
  }

  lemma RunKeepsPhases(s: Sys, c: Cont, input: Input, now: int)
    requires Live(s) && PhasesAreTrue(s) && c in s.conts
    ensures PhasesAreTrue(RunStep(s, c, input, now))
  {
    RunAcks(s, c, input, now);
    if s.d.tx.None? { FirstPhases(s, c, input, now); }
    else if c.PrepareReplies? || c.DecideCommit? { RecordingPhases(s, c, input, now); }
    else if c.CommitRecord? { CommitRecordPhases(s, c, input, now); }
    else if c.Begin? || c.Resume? || c.ReserveReply? || c.SendPrepare? { EarlyPhases(s, c, input, now); }
    else if c.Finalize? || c.FinalizeReply? || c.FinalizeRecord? || c.Commit? || c.CommitReplies? { CommitSidePhases(s, c, input, now); }
    else if c.Resolve? { LatePhases(s, c, input, now); }
    else if c.ReleaseReply? { ReleasePhases(s, c, input, now); }
    else if c.Cancel? || c.CancelReserveReply? || c.CancelReply? { CancelPhases(s, c, input, now); }
    else { AbortSidePhases(s, c, input, now); }
  }

  lemma DeliveryKeepsPhases(s: Sys, m: Msg, accept: bool)
    requires PhasesAreTrue(s) && m in s.sent
    ensures PhasesAreTrue(DeliverStep(s, m, accept))
  {
  }

  lemma OthersKeepPhases(s: Sys, e: Event, now: int)
    requires PhasesAreTrue(s) && !e.Run? && !e.Deliver?
    ensures PhasesAreTrue(Next(s, e, now))
  {
  }

  lemma NextKeepsPhases(s: Sys, e: Event, now: int)
    requires Live(s) && PhasesAreTrue(s)
    ensures PhasesAreTrue(Next(s, e, now))
  {
    match e
    case Run(c, input) => if c in s.conts { RunKeepsPhases(s, c, input, now); }
    case Deliver(m, accept) => if m in s.sent { DeliveryKeepsPhases(s, m, accept); }
    case _ => OthersKeepPhases(s, e, now);
  }

  /** In every run the recorded phases are true of the participants. */
  lemma {:induction false} PhasesTellTheTruth(run: seq<(Event, int)>)
    ensures PhasesAreTrue(After(run))
  {
    if run != [] {
      var n := |run| - 1;
      PhasesTellTheTruth(run[..n]);
      InitIsLive();
      FromIsLive(Init, run[..n]);
      NextKeepsPhases(After(run[..n]), run[n].0, run[n].1);
    }
  }

  /** A commit that is not acknowledged by all is tried again: the first time after five
      seconds, then like any other work. */
  lemma MissingCommitWaits(s: Sys, acked: set<ShardId>, now: int)
    requires CommitRecord(acked) in s.conts && s.d.tx.Some? && s.d.tx.value.state in {Committing, CommittedPendingAck}
    requires !(s.d.tx.value.Participants() <= acked)
    ensures var d' := RunStep(s, CommitRecord(acked), NoInput, now).d;
      var failures := if s.d.tx.value.state == CommittedPendingAck && s.d.queue.Some? then s.d.queue.value.attempts else 0;
      && d'.tx.Some? && d'.tx.value.state == CommittedPendingAck
      && d'.queue == Some(QueueRow(CommitAction, now + (if failures >= 4 then 60000 else 5000 * Pow2(failures)), failures + 1))
  {
    var failures := if s.d.tx.value.state == CommittedPendingAck && s.d.queue.Some? then s.d.queue.value.attempts else 0;
    if failures >= 4 { Pow2AtLeast(if failures < 10 then failures else 10); } else { SmallPowers(failures); }
  }
}
