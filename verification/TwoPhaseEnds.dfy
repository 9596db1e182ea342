/** How a transaction ends: the stored recovery work, answered well, brings every decided
    transaction to its outcome, and nothing that happens in between takes it back. */
module TwoPhaseEnds {
  import opened Basics
  import opened TransactionContract
  import opened CoordinatorSpec
  import opened TwoPhaseCommit

  // ---- runs that are answered well ----

  /** An alarm's turn, a handler going on with a positive answer, a delivery. */
  predicate Good(e: Event) {
    match e
    case StartAlarm(_) => true
    case AlarmCheck(_) => true
    case AlarmDone(_) => true
    case Deliver(_, accept) => accept
    case Run(_, input) =>
      (match input
       case NoInput => true
       case Reserved(reserve) => reserve == ReserveOk
       case Outcome(ok) => ok
       case Acks(_) => true
       case Cancelled(cancel) => cancel == CancelOk
       case Finalized(finalize) => finalize == FinalizeOk
       case Released(released, _) => released
       case ResolutionReply(_) => false)
    case _ => false
  }

  predicate AllGood(run: seq<(Event, int)>) { forall i | 0 <= i < |run| :: Good(run[i].0) }

  /** Some run of at most `steps` events, all answered well, leads there. */
  ghost predicate Reaches(s: Sys, s': Sys, steps: nat) {
    exists run: seq<(Event, int)> :: |run| <= steps && AllGood(run) && From(s, run) == s'
  }

  // ---- the release is queued for a committed transaction only ----

  predicate CommittedRow(d: Durable) { d.tx.Some? && d.tx.value.state == Committed }

  predicate AboutRelease(a: Alarm) { if a.Checking? then a.work.action == ReleaseAction else a.action == ReleaseAction }

  ghost predicate ReleaseOk(s: Sys) {
    && (s.d.queue.Some? && s.d.queue.value.action == ReleaseAction ==> CommittedRow(s.d))
    && (forall id | id in s.alarms && AboutRelease(s.alarms[id]) :: CommittedRow(s.d))
  }

  ghost predicate Live(s: Sys) { Inv(s) && ReleaseOk(s) }

  lemma RunKeepsCommitted(s: Sys, c: Cont, input: Input, now: int)
    requires Inv(s) && c in s.conts && CommittedRow(s.d)
    ensures CommittedRow(RunStep(s, c, input, now).d)
  {
    if c.ReleaseReply? {} else { CommittedRunIsQuiet(s, c, input, now); }
  }

  predicate QueuesRelease(d: Durable) { d.queue.Some? && d.queue.value.action == ReleaseAction }

  /** Only the last commit acknowledgement and the release's own retry queue a release. */
  lemma RunQueuesRelease(s: Sys, c: Cont, input: Input, now: int)
    requires c in s.conts && ContOk(c, s.d)
    ensures QueuesRelease(RunStep(s, c, input, now).d) ==> QueuesRelease(s.d) || CommittedRow(RunStep(s, c, input, now).d)
  {
    if c.CommitRecord? || c.ReleaseReply? {} else { OthersQueueNoRelease(s, c, input, now); }
  }

  lemma OthersQueueNoRelease(s: Sys, c: Cont, input: Input, now: int)
    requires c in s.conts && !c.CommitRecord? && !c.ReleaseReply?
    ensures QueuesRelease(RunStep(s, c, input, now).d) ==> QueuesRelease(s.d)
  {
  }

  lemma RunKeepsRelease(s: Sys, c: Cont, input: Input, now: int)
    requires Live(s) && c in s.conts
    ensures ReleaseOk(RunStep(s, c, input, now))
  {
    assert ContOk(c, s.d);
    RunLeavesAlarms(s, c, input, now);
    if CommittedRow(s.d) { RunKeepsCommitted(s, c, input, now); }
    RunQueuesRelease(s, c, input, now);
  }

  lemma NextIsLive(s: Sys, e: Event, now: int)
    requires Live(s)
    ensures Live(Next(s, e, now))
  {
    NextKeeps(s, e, now);
    match e
    case Run(c, input) => if c in s.conts { RunKeepsRelease(s, c, input, now); }
    case _ =>
  }

  lemma {:induction false} FromIsLive(s: Sys, run: seq<(Event, int)>)
    requires Live(s)
    ensures Live(From(s, run))
  {
    if run != [] {
      var n := |run| - 1;
      FromIsLive(s, run[..n]);
      NextIsLive(From(s, run[..n]), run[n].0, run[n].1);
    }
  }

  lemma InitIsLive()
    ensures Live(Init)
  {
  }

  // ---- going on ----

  /** There, with this row. */
  ghost predicate At(s: Sys, a: Sys, n: nat, t: TxRow) { Reaches(s, a, n) && Live(a) && a.d.tx == Some(t) }

  lemma Stays(s: Sys)
    ensures Reaches(s, s, 0)
  {
    assert From(s, []) == s && AllGood([]);
  }

  lemma Takes(s: Sys, a: Sys, n: nat, e: Event, now: int) returns (b: Sys)
    requires Reaches(s, a, n) && Live(a) && Good(e)
    ensures b == Next(a, e, now) && Reaches(s, b, n + 1) && Live(b)
  {
    var run: seq<(Event, int)> :| |run| <= n && AllGood(run) && From(s, run) == a;
    var longer := run + [(e, now)];
    assert longer[..|longer| - 1] == run;
    NextIsLive(a, e, now);
    b := Next(a, e, now);
    assert AllGood(longer) && From(s, longer) == b;
  }

  lemma {:induction false} FreshAlarm(alarms: map<nat, Alarm>) returns (id: nat)
    ensures id !in alarms
  {
    id := Above(alarms.Keys);
    assert id !in alarms.Keys;
  }

  lemma {:induction false} Above(ids: set<nat>) returns (id: nat)
    ensures id !in ids && forall i | i in ids :: i < id
    decreases |ids|
  {
    if ids == {} { id := 0; }
    else {
      var x :| x in ids;
      var rest := Above(ids - {x});
      id := if rest <= x then x + 1 else rest;
      assert forall i | i in ids :: i == x || i in ids - {x};
    }
  }

  /** The alarm of a queued recovery dispatches it. */
  lemma Dispatches(s: Sys, t: TxRow) returns (b: Sys)
    requires Live(s) && s.d.tx == Some(t) && s.d.queue.Some? && t.state != Committed
    ensures At(s, b, 2, t) && b.d == s.d && Resume(t) in b.conts && b.sent == s.sent && b.commitAcks == s.commitAcks
  {
    var id := FreshAlarm(s.alarms);
    Stays(s);
    b := Takes(s, s, 0, StartAlarm(id), 0);
    assert b == s.(alarms := s.alarms[id := Checking(s.d.queue.value, t)]);
    b := Takes(s, b, 1, AlarmCheck(id), s.d.queue.value.nextAttemptAt);
  }

  /** A handler goes on. */
  lemma Goes(s: Sys, a: Sys, n: nat, t: TxRow, c: Cont, input: Input, now: int) returns (b: Sys)
    requires At(s, a, n, t) && c in a.conts && Good(Run(c, input))
    ensures b == RunStep(a, c, input, now) && Reaches(s, b, n + 1) && Live(b)
  {
    b := Takes(s, a, n, Run(c, input), now);
  }

  // ---- aborting ----

  /** Every abort message that is not yet acknowledged is delivered. */
  lemma {:induction false} DeliversAborts(s: Sys, a: Sys, n: nat, t: TxRow, left: set<ShardId>) returns (b: Sys)
    requires At(s, a, n, t) && t.cancelRequest && AbortReplies in a.conts
    requires (forall x | x in t.Participants() :: Msg(x, AbortMsg) in a.sent) && t.Participants() - left <= a.abortAcks && left <= t.Participants()
    ensures At(s, b, n + |left|, t) && b.d == a.d && AbortReplies in b.conts && t.Participants() <= b.abortAcks
    decreases |left|
  {
    if left == {} {
      b := a;
    } else {
      var x :| x in left;
      AbortIsAcknowledged(a, t, x);
      var c := Takes(s, a, n, Deliver(Msg(x, AbortMsg), true), 0);
      b := DeliversAborts(s, c, n + 1, t, left - {x});
    }
  }

  lemma AbortIsAcknowledged(a: Sys, t: TxRow, x: ShardId)
    requires Live(a) && a.d.tx == Some(t) && t.cancelRequest && Msg(x, AbortMsg) in a.sent
    ensures var b := Next(a, Deliver(Msg(x, AbortMsg), true), 0);
      b.d == a.d && b.conts == a.conts && b.sent == a.sent && b.abortAcks == a.abortAcks + {x}
  {
    assert PartOk(a, x);
  }

  lemma AbortSteps(a: Sys, t: TxRow)
    requires a.d.tx == Some(t) && t.state in {AbortDecided, Aborting}
    ensures Resume(t) in a.conts ==> RunStep(a, Resume(t), NoInput, 0) == a.(conts := a.conts + {ReconcileAbort(t)})
    ensures ReconcileAbort(t) in a.conts ==>
      RunStep(a, ReconcileAbort(t), NoInput, 0)
        == a.(d := a.d.(tx := Some(t.(state := Aborting))), conts := a.conts + {AbortReplies}, sent := a.sent + ToAll(t.Participants(), AbortMsg))
  {
  }

  /** From a decided abort: the messages are on their way. */
  lemma SendsAborts(s: Sys, a: Sys, n: nat, t: TxRow) returns (b: Sys)
    requires At(s, a, n, t) && t.state in {AbortDecided, Aborting} && Resume(t) in a.conts
    ensures At(s, b, n + 2, t.(state := Aborting)) && b.d.queue == a.d.queue && AbortReplies in b.conts
    ensures forall x | x in t.Participants() :: Msg(x, AbortMsg) in b.sent
  {
    AbortSteps(a, t);
    var c := Goes(s, a, n, t, Resume(t), NoInput, 0);
    AbortSteps(c, t);
    b := Goes(s, c, n + 1, t, ReconcileAbort(t), NoInput, 0);
  }

  lemma RecordsAborts(s: Sys, a: Sys, n: nat, t: TxRow) returns (b: Sys)
    requires At(s, a, n, t) && t.state == Aborting && AbortReplies in a.conts && t.Participants() <= a.abortAcks
    ensures var t' := t.(state := AbortedPendingManifestCancel); At(s, b, n + 1, t') && b.d.queue.Some? && Cancel(t') in b.conts
  {
    b := Goes(s, a, n, t, AbortReplies, Outcome(true), 0);
  }

  lemma CancelSteps(a: Sys, t: TxRow)
    requires a.d.tx == Some(t) && t.state == AbortedPendingManifestCancel
    ensures a.d.queue.Some? && Cancel(t) in a.conts ==>
      RunStep(a, Cancel(t), NoInput, 0) == a.(conts := a.conts + {CancelReserveReply})
    ensures CancelReserveReply in a.conts ==>
      RunStep(a, CancelReserveReply, Reserved(ReserveOk), 0) == a.(conts := a.conts + {CancelReply})
    ensures CancelReply in a.conts ==>
      RunStep(a, CancelReply, Cancelled(CancelOk), 0) == a.(d := Durable(Some(t.(state := Aborted)), None), conts := a.conts + {})
  {
  }

  /** The cancellation, confirmed. */
  lemma Cancels(s: Sys, a: Sys, n: nat, t: TxRow) returns (b: Sys)
    requires At(s, a, n, t) && t.state == AbortedPendingManifestCancel && a.d.queue.Some? && Cancel(t) in a.conts
    ensures At(s, b, n + 3, t.(state := Aborted)) && b.d.queue == None
  {
    CancelSteps(a, t);
    var c := Goes(s, a, n, t, Cancel(t), NoInput, 0);
    CancelSteps(c, t);
    var e := Goes(s, c, n + 1, t, CancelReserveReply, Reserved(ReserveOk), 0);
    CancelSteps(e, t);
    b := Goes(s, e, n + 2, t, CancelReply, Cancelled(CancelOk), 0);
  }

  /** Aborted, with nothing left to do, and known to be so at every participant. */
  ghost predicate AbortDone(s: Sys) {
    && s.d.tx.Some? && s.d.tx.value.state == Aborted && s.d.tx.value.decision == DecidedAbort && s.d.queue == None
    && forall x | x in s.d.tx.value.Participants() :: s.Part(x) == PAborted
  }

  lemma AbortedIsDone(s: Sys, t: TxRow)
    requires Live(s) && s.d.tx == Some(t) && t.state == Aborted && t.cancelRequest && s.d.queue == None
    ensures AbortDone(s)
  {
  }

  lemma FinishesAbort(s: Sys, a: Sys, t: TxRow) returns (b: Sys)
    requires At(s, a, 2, t) && t.state in {AbortDecided, Aborting} && t.cancelRequest && Resume(t) in a.conts
    ensures Reaches(s, b, 8 + |t.Participants()|) && AbortDone(b) && b.d.tx.value.Participants() == t.Participants()
  {
    var all := t.Participants();
    b := SendsAborts(s, a, 2, t);
    var t1 := t.(state := Aborting);
    b := DeliversAborts(s, b, 4, t1, all);
    b := RecordsAborts(s, b, 4 + |all|, t1);
    var t2 := t1.(state := AbortedPendingManifestCancel);
    b := Cancels(s, b, 5 + |all|, t2);
    AbortedIsDone(b, t2.(state := Aborted));
  }

  /** A decided abort whose recovery is queued ends, in at most eight steps and one per
      participant, when its work is answered well. */
  lemma AbortEnds(s: Sys) returns (b: Sys)
    requires Live(s) && s.d.tx.Some? && s.d.queue.Some? && s.d.tx.value.state in {AbortDecided, Aborting, AbortedPendingManifestCancel}
    ensures Reaches(s, b, 8 + |s.d.tx.value.Participants()|) && AbortDone(b) && b.d.tx.value.Participants() == s.d.tx.value.Participants()
  {
    var t := s.d.tx.value;
    var all := t.Participants();
    b := Dispatches(s, t);
    if t.state == AbortedPendingManifestCancel {
      var c := Goes(s, b, 2, t, Resume(t), NoInput, 0);
      assert c.d == s.d && Cancel(t) in c.conts;
      b := Cancels(s, c, 3, t);
      AbortedIsDone(b, t.(state := Aborted));
      Within(s, b, 6, 8 + |all|);
    } else {
      b := FinishesAbort(s, b, t);
    }
  }

  lemma Within(s: Sys, b: Sys, n: nat, m: nat)
    requires Reaches(s, b, n) && n <= m
    ensures Reaches(s, b, m)
  {
  }

  // ---- committing ----

  lemma FinalizeSteps(a: Sys, t: TxRow, now: int)
    requires a.d.tx == Some(t) && t.state in {CommitDeciding, CommitPendingManifest} && t.finalizeRequest
    ensures Resume(t) in a.conts ==> RunStep(a, Resume(t), NoInput, now) == a.(conts := a.conts + {Finalize(t)})
    ensures Finalize(t) in a.conts ==> RunStep(a, Finalize(t), NoInput, now) == a.(conts := a.conts + {FinalizeReply(t.state)})
    ensures FinalizeReply(t.state) in a.conts ==>
      RunStep(a, FinalizeReply(t.state), Finalized(FinalizeOk), now) == a.(conts := a.conts + {FinalizeRecord(t.state)})
    ensures FinalizeRecord(t.state) in a.conts ==>
      var t' := t.(state := ManifestRegistered, manifestRecord := true);
      RunStep(a, FinalizeRecord(t.state), NoInput, now) == a.(d := Durable(Some(t'), Queued(CommitAction, now)), conts := a.conts + {Commit(t')})
  {
  }

  /** The finalized record is fetched and stored. */
  lemma Registers(s: Sys, a: Sys, n: nat, t: TxRow) returns (b: Sys)
    requires At(s, a, n, t) && t.state in {CommitDeciding, CommitPendingManifest} && (Resume(t) in a.conts || Finalize(t) in a.conts)
    ensures var t' := t.(state := ManifestRegistered, manifestRecord := true); At(s, b, n + 4, t') && b.d.queue.Some? && Commit(t') in b.conts
  {
    assert RowOk(t);
    FinalizeSteps(a, t, 0);
    var c := a;
    if Finalize(t) !in a.conts { c := Goes(s, a, n, t, Resume(t), NoInput, 0); }
    Within(s, c, if c == a then n else n + 1, n + 1);
    FinalizeSteps(c, t, 0);
    var e := Goes(s, c, n + 1, t, Finalize(t), NoInput, 0);
    FinalizeSteps(e, t, 0);
    var f := Goes(s, e, n + 2, t, FinalizeReply(t.state), Finalized(FinalizeOk), 0);
    FinalizeSteps(f, t, 0);
    b := Goes(s, f, n + 3, t, FinalizeRecord(t.state), NoInput, 0);
  }

  /** The commit messages are on their way. */
  ghost predicate Sending(s: Sys, a: Sys, n: nat, t: TxRow) {
    At(s, a, n, t) && CommitReplies in a.conts && t.state in {Committing, CommittedPendingAck}
    && forall x | x in t.Participants() :: Msg(x, CommitMsg) in a.sent
  }

  lemma CommitSteps(a: Sys, t: TxRow)
    requires a.d.tx == Some(t) && t.state in {ManifestRegistered, Committing, CommittedPendingAck} && Commit(t) in a.conts
    ensures var t' := if t.state == ManifestRegistered then t.(state := Committing) else t;
      RunStep(a, Commit(t), NoInput, 0)
        == a.(d := a.d.(tx := Some(t')), conts := a.conts + {CommitReplies}, sent := a.sent + ToAll(t.Participants(), CommitMsg))
  {
  }

  lemma SendsCommits(s: Sys, a: Sys, n: nat, t: TxRow) returns (b: Sys)
    requires At(s, a, n, t) && t.state in {ManifestRegistered, Committing, CommittedPendingAck} && Commit(t) in a.conts
    ensures var t' := if t.state == ManifestRegistered then t.(state := Committing) else t; Sending(s, b, n + 1, t')
  {
    CommitSteps(a, t);
    b := Goes(s, a, n, t, Commit(t), NoInput, 0);
  }

  lemma {:induction false} DeliversCommits(s: Sys, a: Sys, n: nat, t: TxRow, left: set<ShardId>) returns (b: Sys)
    requires Sending(s, a, n, t) && t.Participants() - left <= a.commitAcks && left <= t.Participants()
    ensures Sending(s, b, n + |left|, t) && t.Participants() <= b.commitAcks
    decreases |left|
  {
    if left == {} {
      b := a;
    } else {
      var x :| x in left;
      CommitIsAcknowledged(a, t, x);
      var c := Takes(s, a, n, Deliver(Msg(x, CommitMsg), true), 0);
      b := DeliversCommits(s, c, n + 1, t, left - {x});
    }
  }

  /** A prepared participant acknowledges the commit: it cannot have aborted. */
  lemma CommitIsAcknowledged(a: Sys, t: TxRow, x: ShardId)
    requires Live(a) && a.d.tx == Some(t) && t.state in {Committing, CommittedPendingAck} && x in t.Participants() && Msg(x, CommitMsg) in a.sent
    ensures var b := Next(a, Deliver(Msg(x, CommitMsg), true), 0);
      b.d == a.d && b.conts == a.conts && b.sent == a.sent && b.commitAcks == a.commitAcks + {x}
  {
    assert PartOk(a, x) && x in a.prepareAcks;
  }

  lemma RecordSteps(a: Sys, t: TxRow)
    requires a.d.tx == Some(t) && t.state in {Committing, CommittedPendingAck} && t.Participants() <= a.commitAcks
    ensures CommitReplies in a.conts ==>
      RunStep(a, CommitReplies, Acks(t.Participants()), 0) == a.(conts := a.conts + {CommitRecord(t.Participants())})
    ensures CommitRecord(t.Participants()) in a.conts ==>
      var b := RunStep(a, CommitRecord(t.Participants()), NoInput, 0);
      && b.d == Durable(Some(t.(state := Committed, phases := Acknowledged(t.phases, t.Participants()))), Queued(ReleaseAction, 0))
      && b.conts == a.conts + {}
  {
    assert t.Participants() * a.commitAcks == t.Participants();
  }

  /** All acknowledged: committed, and its release queued. */
  lemma RecordsCommits(s: Sys, a: Sys, n: nat, t: TxRow) returns (b: Sys)
    requires Sending(s, a, n, t) && t.Participants() <= a.commitAcks
    ensures Reaches(s, b, n + 2) && Live(b) && OwesRelease(b.d) && b.d.tx.value.Participants() == t.Participants()
  {
    RecordSteps(a, t);
    var c := Goes(s, a, n, t, CommitReplies, Acks(t.Participants()), 0);
    RecordSteps(c, t);
    b := Goes(s, c, n + 1, t, CommitRecord(t.Participants()), NoInput, 0);
  }

  /** From a registered manifest to the owed release. */
  lemma FinishesCommit(s: Sys, a: Sys, n: nat, t: TxRow) returns (b: Sys)
    requires At(s, a, n, t) && t.state in {ManifestRegistered, Committing, CommittedPendingAck} && Commit(t) in a.conts
    ensures Reaches(s, b, n + 3 + |t.Participants()|) && Live(b) && OwesRelease(b.d) && b.d.tx.value.Participants() == t.Participants()
  {
    var t' := if t.state == ManifestRegistered then t.(state := Committing) else t;
    var c := SendsCommits(s, a, n, t);
    c := DeliversCommits(s, c, n + 1, t', t.Participants());
    b := RecordsCommits(s, c, n + 1 + |t.Participants()|, t');
  }

  lemma ReleaseSteps(a: Sys, t: TxRow, id: nat)
    requires a.d.tx == Some(t) && t.state == Committed && a.d.queue.Some? && a.d.queue.value.action == ReleaseAction && id !in a.alarms
    ensures var b := Next(a, StartAlarm(id), 0);
      var c := Next(b, AlarmCheck(id), a.d.queue.value.nextAttemptAt);
      && c.d == a.d && ReleaseReply in c.conts
      && RunStep(c, ReleaseReply, Released(true, None), 0).d == a.d.(queue := None)
  {
  }

  /** Committed at every participant, with nothing left to do. */
  ghost predicate CommitDone(s: Sys) {
    CommittedRow(s.d) && s.d.tx.value.decision == DecidedCommit && s.d.queue == None
    && forall x | x in s.d.tx.value.Participants() :: s.Part(x) == PCommitted
  }

  /** The alarm of the release, confirmed. */
  lemma Releases(s: Sys, a: Sys, n: nat) returns (b: Sys)
    requires Reaches(s, a, n) && Live(a) && OwesRelease(a.d)
    ensures Reaches(s, b, n + 3) && Live(b) && CommitDone(b) && b.d.tx == a.d.tx
  {
    var id := FreshAlarm(a.alarms);
    ReleaseSteps(a, a.d.tx.value, id);
    var c := Takes(s, a, n, StartAlarm(id), 0);
    var e := Takes(s, c, n + 1, AlarmCheck(id), a.d.queue.value.nextAttemptAt);
    b := Takes(s, e, n + 2, Run(ReleaseReply, Released(true, None)), 0);
  }

  lemma ResumesCommit(s: Sys, a: Sys, t: TxRow) returns (b: Sys)
    requires At(s, a, 2, t) && t.state in {ManifestRegistered, Committing, CommittedPendingAck} && Resume(t) in a.conts
    ensures At(s, b, 3, t) && Commit(t) in b.conts
  {
    b := Goes(s, a, 2, t, Resume(t), NoInput, 0);
  }

  /** A decided commit whose recovery is queued ends, in at most twelve steps and one per
      participant, when its work is answered well. */
  lemma CommitEnds(s: Sys) returns (b: Sys)
    requires Live(s) && s.d.tx.Some? && s.d.queue.Some?
    requires s.d.tx.value.state in {CommitDeciding, CommitPendingManifest, ManifestRegistered, Committing, CommittedPendingAck}
    ensures Reaches(s, b, 12 + |s.d.tx.value.Participants()|) && CommitDone(b) && b.d.tx.value.Participants() == s.d.tx.value.Participants()
  {
    var t := s.d.tx.value;
    var all := t.Participants();
    var c := Dispatches(s, t);
    if t.state in {CommitDeciding, CommitPendingManifest} {
      c := Registers(s, c, 2, t);
      c := FinishesCommit(s, c, 6, t.(state := ManifestRegistered, manifestRecord := true));
    } else {
      c := ResumesCommit(s, c, t);
      c := FinishesCommit(s, c, 3, t);
      Within(s, c, 6 + |all|, 9 + |all|);
    }
    b := Releases(s, c, 9 + |all|);
  }

  // ---- the decisions that lead there ----

  /** An abort that is not yet decided is decided, and ends. */
  lemma DecidedAbortEnds(s: Sys, a: Sys, n: nat, t: TxRow) returns (b: Sys)
    requires At(s, a, n, t) && t.state in {ManifestReserving, Preparing, Prepared} && DecideAbort in a.conts
    ensures Reaches(s, b, n + 9 + |t.Participants()|) && AbortDone(b) && b.d.tx.value.Participants() == t.Participants()
  {
    var c := Goes(s, a, n, t, DecideAbort, NoInput, 0);
    assert c.d == Durable(Some(t.(state := AbortDecided, decision := DecidedAbort, cancelRequest := true)), Queued(AbortAction, 0));
    b := AbortEnds(c);
    Chains(s, c, n + 1, b, 8 + |t.Participants()|);
  }

  lemma {:induction false} Chains(s: Sys, a: Sys, n: nat, b: Sys, m: nat)
    requires Reaches(s, a, n) && Reaches(a, b, m)
    ensures Reaches(s, b, n + m)
  {
    var first: seq<(Event, int)> :| |first| <= n && AllGood(first) && From(s, first) == a;
    var second: seq<(Event, int)> :| |second| <= m && AllGood(second) && From(a, second) == b;
    FromJoins(s, first, second);
    assert AllGood(first + second);
  }

  lemma {:induction false} FromJoins(s: Sys, a: seq<(Event, int)>, b: seq<(Event, int)>)
    ensures From(s, a + b) == From(From(s, a), b)
  {
    if b == [] {
      assert a + b == a;
    } else {
      var n := |b| - 1;
      FromJoins(s, a, b[..n]);
      assert (a + b)[..|a + b| - 1] == a + b[..n];
    }
  }

  /** A prepare that fails anywhere aborts the transaction, at every participant. */
  lemma RefusedPrepareEnds(s: Sys, t: TxRow, now: int) returns (b: Sys)
    requires Live(s) && s.d.tx == Some(t) && t.state in {Preparing, Prepared} && PrepareReplies in s.conts
    ensures Reaches(Next(s, Run(PrepareReplies, Outcome(false)), now), b, 9 + |t.Participants()|)
    ensures AbortDone(b) && b.d.tx.value.Participants() == t.Participants()
  {
    var a := Next(s, Run(PrepareReplies, Outcome(false)), now);
    NextIsLive(s, Run(PrepareReplies, Outcome(false)), now);
    Stays(a);
    b := DecidedAbortEnds(a, a, 0, t);
  }

  /** So does a reservation that is refused while something of it may exist. */
  lemma RefusedReservationEnds(s: Sys, t: TxRow, result: ReserveResult, now: int) returns (b: Sys)
    requires Live(s) && s.d.tx == Some(t) && t.state == ManifestReserving && ReserveReply in s.conts
    requires result.ReserveQuarantined? || (result.ReserveRejected? && !RejectedAbsent(result))
    ensures Reaches(Next(s, Run(ReserveReply, Reserved(result)), now), b, 9 + |t.Participants()|)
    ensures AbortDone(b) && b.d.tx.value.Participants() == t.Participants()
  {
    var a := Next(s, Run(ReserveReply, Reserved(result)), now);
    NextIsLive(s, Run(ReserveReply, Reserved(result)), now);
    Stays(a);
    b := DecidedAbortEnds(a, a, 0, t);
  }

  lemma ForceSteps(a: Sys, t: TxRow)
    requires a.d.tx == Some(t) && t.state in {ManifestReserving, Preparing, Prepared, AbortDecided, Aborting, AbortedPendingManifestCancel}
    requires ForceAbort(t) in a.conts
    ensures var c := if t.state in {ManifestReserving, Preparing, Prepared} then DecideAbort
                     else if t.state == AbortedPendingManifestCancel then Cancel(t) else ReconcileAbort(t);
      RunStep(a, ForceAbort(t), NoInput, 0) == a.(conts := a.conts + {c})
  {
  }

  /** An operator's abort ends every transaction that is not decided to commit, and that is
      not parked for an audit. */
  lemma ForceAbortEnds(s: Sys, t: TxRow, now: int) returns (b: Sys)
    requires Live(s) && s.d.tx == Some(t) && (s.d.queue.None? ==> !AuditedPark(t))
    requires t.state in {ManifestReserving, Preparing, Prepared, AbortDecided, Aborting, AbortedPendingManifestCancel}
    ensures Reaches(Next(s, StartForceAbort, now), b, 10 + |t.Participants()|)
    ensures AbortDone(b) && b.d.tx.value.Participants() == t.Participants()
  {
    var a := Next(s, StartForceAbort, now);
    NextIsLive(s, StartForceAbort, now);
    Stays(a);
    ForceSteps(a, t);
    if t.state in {AbortDecided, Aborting} {
      b := AbortEnds(a);
      Within(a, b, 8 + |t.Participants()|, 10 + |t.Participants()|);
    } else {
      var c := Goes(a, a, 0, t, ForceAbort(t), NoInput, 0);
      if t.state == AbortedPendingManifestCancel {
        b := CancelsUnparked(a, c, 1, t);
        AbortedIsDone(b, t.(state := Aborted));
        Within(a, b, 4, 10 + |t.Participants()|);
      } else {
        b := DecidedAbortEnds(a, c, 1, t);
      }
    }
  }

  lemma CancelBegins(a: Sys, t: TxRow)
    requires a.d.tx == Some(t) && t.state == AbortedPendingManifestCancel && Cancel(t) in a.conts
    ensures RunStep(a, Cancel(t), NoInput, 0) ==
      if a.d.queue.None? && AuditedPark(t) then a.(conts := a.conts + {}) else a.(conts := a.conts + {CancelReserveReply})
  {
  }

  /** Also without a queued recovery, unless it is parked for an audit. */
  lemma CancelsUnparked(s: Sys, a: Sys, n: nat, t: TxRow) returns (b: Sys)
    requires At(s, a, n, t) && t.state == AbortedPendingManifestCancel && Cancel(t) in a.conts && (a.d.queue.None? ==> !AuditedPark(t))
    ensures At(s, b, n + 3, t.(state := Aborted)) && b.d.queue == None
  {
    CancelBegins(a, t);
    var c := Goes(s, a, n, t, Cancel(t), NoInput, 0);
    CancelSteps(c, t);
    var e := Goes(s, c, n + 1, t, CancelReserveReply, Reserved(ReserveOk), 0);
    CancelSteps(e, t);
    b := Goes(s, e, n + 2, t, CancelReply, Cancelled(CancelOk), 0);
  }

  // ---- a whole transaction ----

  lemma BeginSteps(a: Sys, all: set<ShardId>)
    requires a.d == Durable(None, None) && Begin(all) in a.conts
    ensures var t := Inserted(all, 0).tx.value;
      RunStep(a, Begin(all), NoInput, 0) == a.(d := Inserted(all, 0), conts := a.conts + {Resume(t)})
  {
  }

  lemma ReserveSteps(a: Sys, t: TxRow)
    requires a.d.tx == Some(t) && t.state == ManifestReserving
    ensures Resume(t) in a.conts ==> RunStep(a, Resume(t), NoInput, 0) == a.(conts := a.conts + {ReserveReply})
    ensures ReserveReply in a.conts ==>
      var t' := t.(state := Preparing);
      RunStep(a, ReserveReply, Reserved(ReserveOk), 0) == a.(d := Durable(Some(t'), None), conts := a.conts + {SendPrepare(t')})
  {
  }

  lemma SendPrepareStep(a: Sys, t: TxRow)
    requires a.d.tx == Some(t) && SendPrepare(t) in a.conts
    ensures RunStep(a, SendPrepare(t), NoInput, 0) == a.(conts := a.conts + {PrepareReplies}, sent := a.sent + ToAll(t.Participants(), PrepareMsg))
  {
  }

  /** Prepare is on its way to everyone, and no participant knows of the transaction. */
  ghost predicate AllAsked(s: Sys, a: Sys, n: nat, t: TxRow) {
    At(s, a, n, t) && t.state == Preparing && PrepareReplies in a.conts && forall x | x in t.Participants() :: Msg(x, PrepareMsg) in a.sent
  }

  lemma Prepares(s: Sys, all: set<ShardId>) returns (b: Sys, t: TxRow)
    requires Live(s) && s.d == Durable(None, None) && Begin(all) in s.conts
    ensures AllAsked(s, b, 4, t) && t.Participants() == all && b.parts == s.parts && b.prepareAcks == s.prepareAcks
  {
    Stays(s);
    BeginSteps(s, all);
    t := Inserted(all, 0).tx.value;
    b := Takes(s, s, 0, Run(Begin(all), NoInput), 0);
    ReserveSteps(b, t);
    b := Goes(s, b, 1, t, Resume(t), NoInput, 0);
    ReserveSteps(b, t);
    b := Goes(s, b, 2, t, ReserveReply, Reserved(ReserveOk), 0);
    t := t.(state := Preparing);
    SendPrepareStep(b, t);
    b := Goes(s, b, 3, t, SendPrepare(t), NoInput, 0);
  }

  lemma {:induction false} DeliversPrepares(s: Sys, a: Sys, n: nat, t: TxRow, left: set<ShardId>) returns (b: Sys)
    requires AllAsked(s, a, n, t) && t.Participants() - left <= a.prepareAcks && left <= t.Participants()
    requires forall x | x in left :: a.Part(x) == PIdle
    ensures AllAsked(s, b, n + |left|, t) && t.Participants() <= b.prepareAcks
    decreases |left|
  {
    if left == {} {
      b := a;
    } else {
      var x :| x in left;
      var c := Takes(s, a, n, Deliver(Msg(x, PrepareMsg), true), 0);
      b := DeliversPrepares(s, c, n + 1, t, left - {x});
    }
  }

  lemma DecideSteps(a: Sys, t: TxRow)
    requires a.d.tx == Some(t) && t.Participants() <= a.prepareAcks
    ensures t.state == Preparing && PrepareReplies in a.conts ==>
      var t' := t.(state := Prepared, phases := map x | x in t.phases :: PhasePrepared);
      RunStep(a, PrepareReplies, Outcome(true), 0) == a.(d := a.d.(tx := Some(t')), conts := a.conts + {Resume(t')})
    ensures t.state == Prepared && Resume(t) in a.conts ==> RunStep(a, Resume(t), NoInput, 0) == a.(conts := a.conts + {DecideCommit})
    ensures t.state == Prepared && DecideCommit in a.conts ==>
      var t' := t.(state := CommitDeciding, decision := DecidedCommit, finalizeRequest := true);
      RunStep(a, DecideCommit, NoInput, 0) == a.(d := Durable(Some(t'), Queued(FinalizeAction, 0)), conts := a.conts + {Finalize(t')})
  {
  }

  /** All prepared: the commit is decided. */
  lemma Decides(s: Sys, a: Sys, n: nat, t: TxRow) returns (b: Sys)
    requires AllAsked(s, a, n, t) && t.Participants() <= a.prepareAcks
    ensures Reaches(s, b, n + 3) && Live(b) && b.d.tx.Some? && b.d.tx.value.state == CommitDeciding && b.d.queue.Some?
    ensures b.d.tx.value.Participants() == t.Participants()
  {
    DecideSteps(a, t);
    var c := Goes(s, a, n, t, PrepareReplies, Outcome(true), 0);
    var t1 := t.(state := Prepared, phases := map x | x in t.phases :: PhasePrepared);
    DecideSteps(c, t1);
    var e := Goes(s, c, n + 1, t1, Resume(t1), NoInput, 0);
    DecideSteps(e, t1);
    b := Goes(s, e, n + 2, t1, DecideCommit, NoInput, 0);
  }

  /** From nothing: a transaction whose participants all prepare commits at all of them, in
      at most nineteen steps and two per participant. */
  lemma TransactionCommits(all: set<ShardId>) returns (b: Sys)
    requires all != {}
    ensures Reaches(Next(Init, StartBegin(all), 0), b, 19 + 2 * |all|) && CommitDone(b) && b.d.tx.value.Participants() == all
  {
    InitIsLive();
    var s := Next(Init, StartBegin(all), 0);
    NextIsLive(Init, StartBegin(all), 0);
    var c, t := Prepares(s, all);
    c := DeliversPrepares(s, c, 4, t, all);
    c := Decides(s, c, 4 + |all|, t);
    b := CommitEnds(c);
    Chains(s, c, 7 + |all|, b, 12 + |all|);
  }

  /** And one in which some prepare fails aborts at all of them. */
  lemma TransactionAborts(all: set<ShardId>) returns (a: Sys, b: Sys)
    requires all != {}
    ensures Reaches(Next(Init, StartBegin(all), 0), a, 4)
    ensures Reaches(Next(a, Run(PrepareReplies, Outcome(false)), 0), b, 9 + |all|) && AbortDone(b) && b.d.tx.value.Participants() == all
  {
    InitIsLive();
    var s := Next(Init, StartBegin(all), 0);
    NextIsLive(Init, StartBegin(all), 0);
    var t: TxRow;
    a, t := Prepares(s, all);
    b := RefusedPrepareEnds(a, t, 0);
  }

  // ---- whatever happens in between ----

  /** A handler moves the state along the contract's transitions, and takes nothing back. */
  ghost predicate MovesOn(s: Sys, s': Sys) {
    s.d.tx.Some? && s'.d.tx.Some? && Allowed(s.d.tx.value.state, s'.d.tx.value.state) && Later(s.d.tx.value, s'.d.tx.value)
  }

  lemma PrepareMovesOn(s: Sys, c: Cont, input: Input, now: int)
    requires Inv(s) && c in s.conts && s.d.tx.Some?
    requires c.Begin? || c.Resume? || c.ReserveReply? || c.SendPrepare? || c.PrepareReplies? || c.Resolve?
    ensures MovesOn(s, RunStep(s, c, input, now))
  {
    assert ContOk(c, s.d) && RowOk(s.d.tx.value);
  }

  lemma AbortMovesOn(s: Sys, c: Cont, input: Input, now: int)
    requires Inv(s) && c in s.conts && s.d.tx.Some?
    requires c.DecideAbort? || c.ReconcileAbort? || c.AbortReplies? || c.ForceAbort?
    ensures MovesOn(s, RunStep(s, c, input, now))
  {
    assert ContOk(c, s.d) && RowOk(s.d.tx.value);
  }

  lemma CancelMovesOn(s: Sys, c: Cont, input: Input, now: int)
    requires Inv(s) && c in s.conts && s.d.tx.Some?
    requires c.Cancel? || c.CancelReserveReply? || c.CancelReply?
    ensures MovesOn(s, RunStep(s, c, input, now))
  {
    assert ContOk(c, s.d) && RowOk(s.d.tx.value);
  }

  lemma FinalizeMovesOn(s: Sys, c: Cont, input: Input, now: int)
    requires Inv(s) && c in s.conts && s.d.tx.Some?
    requires c.DecideCommit? || c.Finalize? || c.FinalizeReply? || c.FinalizeRecord?
    ensures MovesOn(s, RunStep(s, c, input, now))
  {
    assert ContOk(c, s.d) && RowOk(s.d.tx.value);
  }

  lemma CommitMovesOn(s: Sys, c: Cont, input: Input, now: int)
    requires Inv(s) && c in s.conts && s.d.tx.Some?
    requires c.Commit? || c.CommitReplies? || c.CommitRecord? || c.ReleaseReply?
    ensures MovesOn(s, RunStep(s, c, input, now))
  {
    assert ContOk(c, s.d) && RowOk(s.d.tx.value);
  }

  lemma EventMovesOn(s: Sys, e: Event, now: int)
    requires Inv(s) && s.d.tx.Some?
    ensures MovesOn(s, Next(s, e, now))
  {
    if e.Run? && e.cont in s.conts {
      var c := e.cont;
      if c.Begin? || c.Resume? || c.ReserveReply? || c.SendPrepare? || c.PrepareReplies? || c.Resolve? { PrepareMovesOn(s, c, e.input, now); }
      else if c.DecideAbort? || c.ReconcileAbort? || c.AbortReplies? || c.ForceAbort? { AbortMovesOn(s, c, e.input, now); }
      else if c.Cancel? || c.CancelReserveReply? || c.CancelReply? { CancelMovesOn(s, c, e.input, now); }
      else if c.DecideCommit? || c.Finalize? || c.FinalizeReply? || c.FinalizeRecord? { FinalizeMovesOn(s, c, e.input, now); }
      else { CommitMovesOn(s, c, e.input, now); }
    }
  }

  /** So every event of every run moves the state along the contract's transitions. */
  lemma {:induction false} TransitionsAreAllowed(run: seq<(Event, int)>, e: Event, now: int)
    requires After(run).d.tx.Some?
    ensures Next(After(run), e, now).d.tx.Some? && Allowed(After(run).d.tx.value.state, Next(After(run), e, now).d.tx.value.state)
  {
    Reachable(run);
    EventMovesOn(After(run), e, now);
  }

  predicate AbortStands(s: Sys) { s.d.tx.Some? && s.d.tx.value.cancelRequest && (AbortDecidedOrLater(s.d.tx.value.state) || s.d.tx.value.state == Quarantined) }

  lemma AbortStandsOn(s: Sys, e: Event, now: int)
    requires Inv(s) && AbortStands(s)
    ensures AbortStands(Next(s, e, now)) && Next(s, e, now).d.tx.value.Participants() == s.d.tx.value.Participants()
  {
    EventMovesOn(s, e, now);
    NextKeeps(s, e, now);
  }

  lemma {:induction false} AbortStandsForGood(s: Sys, run: seq<(Event, int)>)
    requires Live(s) && AbortStands(s)
    ensures Live(From(s, run)) && AbortStands(From(s, run)) && From(s, run).d.tx.value.Participants() == s.d.tx.value.Participants()
  {
    FromIsLive(s, run);
    if run != [] {
      var n := |run| - 1;
      AbortStandsForGood(s, run[..n]);
      AbortStandsOn(From(s, run[..n]), run[n].0, run[n].1);
    }
  }

  /** Once an abort is decided, whatever calls fail, whatever is lost, repeated or comes in
      between: the transaction is aborted, quarantined or parked with its error, or its
      queued recovery still ends it at every participant. */
  lemma {:induction false} AbortCanStillEnd(s: Sys, run: seq<(Event, int)>) returns (b: Sys)
    requires Live(s) && AbortStands(s)
    ensures From(s, run).d.tx.Some?
    ensures var s' := From(s, run); var t := s'.d.tx.value;
      || t.state == Quarantined
      || (t.state == AbortedPendingManifestCancel && s'.d.queue.None? && t.lastError.Some?)
      || (t.state == Aborted && forall x | x in t.Participants() :: s'.Part(x) == PAborted)
      || (Reaches(s', b, 8 + |s.d.tx.value.Participants()|) && AbortDone(b) && b.d.tx.value.Participants() == s.d.tx.value.Participants())
  {
    AbortStandsForGood(s, run);
    b := From(s, run);
    if b.d.queue.Some? && b.d.tx.value.state in {AbortDecided, Aborting, AbortedPendingManifestCancel} { b := AbortEnds(b); }
  }

  // ---- quarantine ----

  lemma ResolveStep(a: Sys, t: TxRow, now: int)
    requires a.d.tx == Some(t) && t.state == Quarantined && t.finalizeRequest && Resolve(t) in a.conts
    ensures RunStep(a, Resolve(t), ResolutionReply(ResolvedFinalized), now).d
         == Durable(Some(t.(state := ManifestRegistered, decision := DecidedCommit, manifestRecord := true, lastError := None)), Queued(CommitAction, now))
  {
  }

  /** A quarantined transaction is resolved either way: what the audit found finalized ends
      committed, what it found cancelled is aborted. */
  lemma FinalizedEnds(s: Sys, t: TxRow, now: int) returns (b: Sys)
    requires Live(s) && s.d.tx == Some(t) && t.state == Quarantined && t.finalizeRequest
    ensures var asked := Next(s, StartResolve(ResolvedFinalized), now);
      Reaches(Next(asked, Run(Resolve(t), ResolutionReply(ResolvedFinalized)), now), b, 12 + |t.Participants()|)
    ensures CommitDone(b) && b.d.tx.value.Participants() == t.Participants()
  {
    var asked := Next(s, StartResolve(ResolvedFinalized), now);
    NextIsLive(s, StartResolve(ResolvedFinalized), now);
    NextIsLive(asked, Run(Resolve(t), ResolutionReply(ResolvedFinalized)), now);
    ResolveStep(asked, t, now);
    b := CommitEnds(Next(asked, Run(Resolve(t), ResolutionReply(ResolvedFinalized)), now));
  }

  lemma CancelledEnds(s: Sys, t: TxRow, now: int)
    requires Live(s) && s.d.tx == Some(t) && t.state == Quarantined && t.cancelRequest
    ensures var asked := Next(s, StartResolve(ResolvedCancelled), now);
      AbortDone(Next(asked, Run(Resolve(t), ResolutionReply(ResolvedCancelled)), now))
  {
    var asked := Next(s, StartResolve(ResolvedCancelled), now);
    NextIsLive(s, StartResolve(ResolvedCancelled), now);
    NextIsLive(asked, Run(Resolve(t), ResolutionReply(ResolvedCancelled)), now);
  }
}
