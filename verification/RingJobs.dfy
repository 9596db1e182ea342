/** The pending index jobs of the base shards during an evacuation: writes that could not be
    delivered at first, aimed at the shard the ring named then. */
module RingJobs {
  import opened Basics
  import opened ShardHash
  import opened RingEvacuation
  import opened RingDrain

  datatype Write = Put(entry: Entry) | Remove(key: EntryKey)

  datatype Job = Job(base: nat, target: ShardId, write: Write)

  /** The flush goes through the base shards one by one. `none` says which of them answered
      that no job for the drained shard is left there, `marks` how many jobs there had ever
      been by then. */
  datatype Flush = Flush(remaining: nat, none: seq<bool>, marks: seq<nat>)

  const NoFlush := Flush(0, [], [])

  datatype World = World(s: Sys, jobs: map<nat, Job>, nextJob: nat, flush: Flush)

  /** A delivery is answered, or not although it may have taken effect; a row written to the
      drained shard gets a fresh rowid. */
  datatype Turn =
    | Enqueue(job: Job)
    | Deliver(id: nat, answered: bool, took: bool, rowid: nat)
    | FlushBase(reachable: bool)
    | FlushEnds
    | Other(e: Event)

  function KeyOfWrite(write: Write): EntryKey { if write.Put? then write.entry.Key() else write.key }

  /** Where a ring places an entry with this key. */
  function PlaceKey(d: Drain, ring: seq<ShardId>, key: EntryKey): ShardId
    requires ring != []
  {
    IndexShardForKey(key.table, d.indexName, key.indexKeyJson, ring)
  }

  function EventFor(to: ShardId, write: Write, rowid: nat): Event {
    if write.Put? then ArriveUpsert(to, write.entry, rowid) else ArriveDelete(to, write.key)
  }

  /** The target, or, if it is fenced, the shard that the first catalog's ring names now. */
  function Destination(d: Drain, s: Sys, job: Job): ShardId {
    if job.target == d.drained && s.fenced && s.catalogs != [] && s.catalogs[0].ring != [] then PlaceKey(d, s.catalogs[0].ring, KeyOfWrite(job.write))
    else job.target
  }

  predicate Refused(d: Drain, s: Sys, job: Job) { Destination(d, s, job) == d.drained && s.fenced }

  predicate RowidIsFresh(d: Drain, s: Sys, job: Job, rowid: nat) {
    Destination(d, s, job) == d.drained && job.write.Put? ==> rowid != 0 && rowid !in OtherRows(s.source, job.write.entry.Key())
  }

  /** The jobs that the flush of one base shard still finds. */
  function Left(d: Drain, jobs: map<nat, Job>, base: nat): set<nat> { set id | id in jobs && jobs[id].base == base && jobs[id].target == d.drained }

  /** What a turn does to the shards and catalogs. */
  ghost function EventOf(d: Drain, w: World, bases: nat, t: Turn): Option<Event> {
    match t
    case Enqueue(_) => None
    case Deliver(id, answered, took, rowid) =>
      if id in w.jobs && !Refused(d, w.s, w.jobs[id]) && RowidIsFresh(d, w.s, w.jobs[id], rowid) && (answered || took)
      then Some(EventFor(Destination(d, w.s, w.jobs[id]), w.jobs[id].write, rowid)) else None
    case FlushBase(_) => None
    case FlushEnds => if w.s.pc.Flushing? && |w.flush.none| == bases then Some(Tick(Answered, [], w.flush.remaining == 0, [], false)) else None
    case Other(e) => if e.Tick? && w.s.pc.Flushing? then None else Some(e)
  }

  ghost function Next(d: Drain, bases: nat, w: World, t: Turn): World
    requires d.me < |w.s.catalogs| && d.ring != []
    ensures |Next(d, bases, w, t).s.catalogs| == |w.s.catalogs|
  {
    var e := EventOf(d, w, bases, t);
    var s := if e.Some? then RingEvacuation.Next(d, w.s, e.value) else w.s;
    match t
    case Enqueue(job) => w.(jobs := w.jobs[w.nextJob := job], nextJob := w.nextJob + 1)
    case Deliver(id, answered, _, _) => w.(s := s, jobs := if e.Some? && answered then w.jobs - {id} else w.jobs)
    case FlushBase(reachable) =>
      if !w.s.pc.Flushing? || |w.flush.none| >= bases then w
      else
        var left := Left(d, w.jobs, |w.flush.none|);
        w.(flush := Flush(w.flush.remaining + (if reachable then |left| else 1), w.flush.none + [reachable && left == {}], w.flush.marks + [w.nextJob]))
    case FlushEnds => w.(s := s, flush := if e.Some? then NoFlush else w.flush)
    case Other(e) => w.(s := s, flush := if e.Crash? then NoFlush else w.flush)
  }

  ghost function After(d: Drain, bases: nat, w: World, turns: seq<Turn>): World
    requires d.me < |w.s.catalogs| && d.ring != []
    ensures |After(d, bases, w, turns).s.catalogs| == |w.s.catalogs|
  {
    if turns == [] then w else Next(d, bases, After(d, bases, w, turns[..|turns| - 1]), turns[|turns| - 1])
  }

  ghost predicate Begins(d: Drain, w: World) { Initial(d, w.s) && w.jobs == map[] && w.nextJob == 0 && w.flush == NoFlush }

  // ---- every run with jobs is a run of the evacuation ----

  ghost function Trace(d: Drain, bases: nat, w: World, turns: seq<Turn>): seq<Event>
    requires d.me < |w.s.catalogs| && d.ring != []
  {
    if turns == [] then []
    else
      var e := EventOf(d, After(d, bases, w, turns[..|turns| - 1]), bases, turns[|turns| - 1]);
      Trace(d, bases, w, turns[..|turns| - 1]) + (if e.Some? then [e.value] else [])
  }

  lemma {:induction false} TraceRuns(d: Drain, bases: nat, w: World, turns: seq<Turn>)
    requires d.me < |w.s.catalogs| && d.ring != []
    ensures After(d, bases, w, turns).s == From(d, w.s, Trace(d, bases, w, turns))
  {
    if turns != [] {
      var n := |turns| - 1;
      TraceRuns(d, bases, w, turns[..n]);
      var before := Trace(d, bases, w, turns[..n]);
      var e := EventOf(d, After(d, bases, w, turns[..n]), bases, turns[n]);
      if e.Some? { assert (before + [e.value])[..|before|] == before; } else { assert before + [] == before; }
    }
  }

  /** So with jobs delivered late, twice or never, no entry is hidden. */
  lemma {:induction false} NoEntryIsHiddenByJobs(d: Drain, bases: nat, w: World, turns: seq<Turn>, catalog: nat, e: Entry)
    requires Begins(d, w) && catalog < |w.s.catalogs| && e in After(d, bases, w, turns).s.live
    ensures Found(d, After(d, bases, w, turns).s, catalog, e)
  {
    TraceRuns(d, bases, w, turns);
    NoEntryIsHidden(d, w.s, Trace(d, bases, w, turns), catalog, e);
  }

  lemma {:induction false} JobsKeepInv(d: Drain, bases: nat, w: World, turns: seq<Turn>)
    requires Begins(d, w)
    ensures Inv(d, After(d, bases, w, turns).s) && Ordered(After(d, bases, w, turns).s)
  {
    TraceRuns(d, bases, w, turns);
    InitialIsFine(d, w.s);
    RunKeeps(d, w.s, Trace(d, bases, w, turns));
    OrderedRun(d, w.s, Trace(d, bases, w, turns));
  }

  // ---- the flush ----

  ghost predicate FlushOk(d: Drain, bases: nat, w: World) {
    && |w.flush.marks| == |w.flush.none| <= bases
    && (w.flush.remaining == 0 <==> forall i | 0 <= i < |w.flush.none| :: w.flush.none[i])
    && (forall id | id in w.jobs :: id < w.nextJob)
    && (forall i | 0 <= i < |w.flush.marks| :: w.flush.marks[i] <= w.nextJob)
    && (forall id | id in w.jobs && w.jobs[id].target == d.drained && w.jobs[id].base < |w.flush.none| && w.flush.none[w.jobs[id].base] ::
          w.flush.marks[w.jobs[id].base] <= id)
  }

  lemma NextFlushOk(d: Drain, bases: nat, w: World, t: Turn)
    requires d.me < |w.s.catalogs| && d.ring != [] && FlushOk(d, bases, w)
    ensures FlushOk(d, bases, Next(d, bases, w, t))
  {
    if t.FlushBase? { FlushBaseOk(d, bases, w, t); }
  }

  lemma FlushBaseOk(d: Drain, bases: nat, w: World, t: Turn)
    requires d.me < |w.s.catalogs| && d.ring != [] && FlushOk(d, bases, w) && t.FlushBase?
    ensures FlushOk(d, bases, Next(d, bases, w, t))
  {
    var w' := Next(d, bases, w, t);
    var n, none, none' := |w.flush.none|, w.flush.none, w'.flush.none;
    if w' != w {
      var left := Left(d, w.jobs, n);
      assert none' == none + [t.reachable && left == {}] && |left| == 0 <==> left == {};
      assert (forall i | 0 <= i < |none'| :: none'[i]) <==> (forall i | 0 <= i < n :: none[i]) && none'[n] by {
        assert forall i | 0 <= i < n :: none'[i] == none[i];
      }
      forall id | id in w.jobs && w.jobs[id].target == d.drained && w.jobs[id].base <= n && none'[w.jobs[id].base]
        ensures w'.flush.marks[w.jobs[id].base] <= id
      {
        assert w.jobs[id].base == n <==> id in left;
        assert w.jobs[id].base < n ==> none'[w.jobs[id].base] == none[w.jobs[id].base];
      }
    }
  }

  lemma {:induction false} AfterFlushOk(d: Drain, bases: nat, w: World, turns: seq<Turn>)
    requires Begins(d, w)
    ensures FlushOk(d, bases, After(d, bases, w, turns))
  {
    if turns != [] {
      AfterFlushOk(d, bases, w, turns[..|turns| - 1]);
      NextFlushOk(d, bases, After(d, bases, w, turns[..|turns| - 1]), turns[|turns| - 1]);
    }
  }

  /** A flush under way belongs to the tick under way. */
  lemma {:induction false} FlushIsFresh(d: Drain, bases: nat, w: World, turns: seq<Turn>)
    requires Begins(d, w)
    ensures var at := After(d, bases, w, turns); !at.s.pc.Flushing? ==> at.flush == NoFlush
  {
    if turns != [] {
      FlushIsFresh(d, bases, w, turns[..|turns| - 1]);
      StaysFresh(d, bases, After(d, bases, w, turns[..|turns| - 1]), turns[|turns| - 1]);
    }
  }

  lemma StaysFresh(d: Drain, bases: nat, w: World, t: Turn)
    requires d.me < |w.s.catalogs| && d.ring != [] && (!w.s.pc.Flushing? ==> w.flush == NoFlush)
    ensures var w' := Next(d, bases, w, t); !w'.s.pc.Flushing? ==> w'.flush == NoFlush
  {
  }

  /** A job that is pending when its base shard is asked is counted, and the answer is that
      something is left. */
  lemma PendingIsCounted(d: Drain, bases: nat, w: World, id: nat, reachable: bool)
    requires d.me < |w.s.catalogs| && d.ring != [] && w.s.pc.Flushing? && |w.flush.none| < bases
    requires id in w.jobs && w.jobs[id].target == d.drained && w.jobs[id].base == |w.flush.none|
    ensures var w' := Next(d, bases, w, FlushBase(reachable)); w'.flush.remaining > w.flush.remaining && w'.flush.none == w.flush.none + [false]
  {
    assert id in Left(d, w.jobs, |w.flush.none|);
  }

  /** Copying starts only at the end of a flush of every base shard, and then exactly when
      each answered that no job for the drained shard is left there; every such job still
      pending was enqueued after its base shard had answered. Otherwise the tick ends. */
  lemma {:induction false} CopyingStartsFlushed(d: Drain, bases: nat, w: World, turns: seq<Turn>, t: Turn)
    requires Begins(d, w)
    ensures var at := After(d, bases, w, turns); var next := Next(d, bases, at, t);
      at.s.pc.Flushing? && next.s.pc != at.s.pc && t != Other(Crash) ==>
        && t == FlushEnds && |at.flush.none| == |at.flush.marks| == bases
        && (next.s.pc == Copying(0, 0) <==> forall i | 0 <= i < bases :: at.flush.none[i])
        && (next.s.pc == Copying(0, 0) || next.s.pc == Idle)
        && (next.s.pc.Copying? ==> forall id | id in next.jobs && next.jobs[id].target == d.drained && next.jobs[id].base < bases ::
              at.flush.marks[next.jobs[id].base] <= id)
  {
    AfterFlushOk(d, bases, w, turns);
    var at := After(d, bases, w, turns);
    if at.s.pc.Flushing? && t != FlushEnds && t != Other(Crash) { OnlyTheFlushEnds(d, bases, at, t); }
  }

  lemma OnlyTheFlushEnds(d: Drain, bases: nat, w: World, t: Turn)
    requires d.me < |w.s.catalogs| && d.ring != [] && w.s.pc.Flushing? && t != FlushEnds && t != Other(Crash)
    ensures Next(d, bases, w, t).s.pc == w.s.pc
  {
  }

  // ---- jobs ----

  /** A job goes away only when its write is in place: on the drained shard as long as that
      takes writes, and from then on where the ring places it. */
  lemma JobsVanishApplied(d: Drain, bases: nat, w: World, t: Turn, id: nat)
    requires d.me < |w.s.catalogs| && d.ring != [] && id in w.jobs && id < w.nextJob && id !in Next(d, bases, w, t).jobs
    ensures var s' := Next(d, bases, w, t).s; var to := Destination(d, w.s, w.jobs[id]);
      && (to == d.drained ==> !w.s.fenced)
      && (w.jobs[id].write.Put? ==> IsOn(d, s', to, w.jobs[id].write.entry))
      && (w.jobs[id].write.Remove? ==> forall e: Entry | e.Key() == w.jobs[id].write.key :: !IsOn(d, s', to, e))
  {
    if w.jobs[id].write.Put? && Destination(d, w.s, w.jobs[id]) == d.drained {
      var s' := Next(d, bases, w, t).s;
      assert t.rowid in s'.source && s'.source[t.rowid] == w.jobs[id].write.entry;
    }
  }

  function Enqueued(turns: seq<Turn>): seq<Job> {
    if turns == [] then [] else Enqueued(turns[..|turns| - 1]) + (match turns[|turns| - 1] case Enqueue(job) => [job] case _ => [])
  }

  /** The turn that took the job with this id out of its queue. */
  ghost predicate TakesOut(d: Drain, bases: nat, w: World, turns: seq<Turn>, n: nat, id: nat)
    requires d.me < |w.s.catalogs| && d.ring != [] && n < |turns|
  {
    var before := After(d, bases, w, turns[..n]);
    id in before.jobs && id < before.nextJob && id !in Next(d, bases, before, turns[n]).jobs
  }

  ghost predicate Accounted(d: Drain, bases: nat, w: World, turns: seq<Turn>, id: nat)
    requires d.me < |w.s.catalogs| && d.ring != [] && id < |Enqueued(turns)|
  {
    var at := After(d, bases, w, turns);
    if id in at.jobs then at.jobs[id] == Enqueued(turns)[id] else exists n :: 0 <= n < |turns| && TakesOut(d, bases, w, turns, n, id)
  }

  lemma NextCounts(d: Drain, bases: nat, w: World, t: Turn)
    requires d.me < |w.s.catalogs| && d.ring != []
    ensures var w' := Next(d, bases, w, t);
      && w'.nextJob == w.nextJob + (if t.Enqueue? then 1 else 0)
      && (t.Enqueue? ==> w'.jobs == w.jobs[w.nextJob := t.job])
      && (!t.Enqueue? ==> w'.jobs.Keys <= w.jobs.Keys && forall id | id in w'.jobs :: w'.jobs[id] == w.jobs[id])
  {
  }

  lemma {:induction false} StillAccounted(d: Drain, bases: nat, w: World, turns: seq<Turn>, id: nat)
    requires d.me < |w.s.catalogs| && d.ring != [] && turns != []
    requires var before := turns[..|turns| - 1];
      After(d, bases, w, before).nextJob == |Enqueued(before)| && id < |Enqueued(before)| && Accounted(d, bases, w, before, id)
    ensures id < |Enqueued(turns)| && Accounted(d, bases, w, turns, id)
  {
    var k := |turns| - 1;
    var at := After(d, bases, w, turns[..k]);
    NextCounts(d, bases, at, turns[k]);
    if id in at.jobs {
      if id !in Next(d, bases, at, turns[k]).jobs { assert TakesOut(d, bases, w, turns, k, id); }
    } else {
      var n :| 0 <= n < k && TakesOut(d, bases, w, turns[..k], n, id);
      assert turns[..k][..n] == turns[..n];
      assert TakesOut(d, bases, w, turns, n, id);
    }
  }

  /** No job is lost: in every run each job ever enqueued is pending as it was enqueued, or
      some turn took it out, with its write in place. */
  lemma {:induction false} JobsAreConserved(d: Drain, bases: nat, w: World, turns: seq<Turn>)
    requires Begins(d, w)
    ensures After(d, bases, w, turns).nextJob == |Enqueued(turns)|
    ensures forall id: nat | id < |Enqueued(turns)| :: Accounted(d, bases, w, turns, id)
  {
    if turns != [] {
      var k := |turns| - 1;
      var at := After(d, bases, w, turns[..k]);
      JobsAreConserved(d, bases, w, turns[..k]);
      NextCounts(d, bases, at, turns[k]);
      forall id: nat | id < |Enqueued(turns)| ensures Accounted(d, bases, w, turns, id) {
        if id < |Enqueued(turns[..k])| { StillAccounted(d, bases, w, turns, id); }
      }
    }
  }

  /** Once the first catalog has the new ring, a late job for the drained shard lands on the
      substitute, where every catalog with the new ring finds its entry. */
  lemma LateJobLands(d: Drain, bases: nat, w: World, id: nat, rowid: nat, catalog: nat)
    requires Inv(d, w.s) && w.s.fenced && IsNew(d, w.s.chosen, w.s.catalogs[0].ring) && catalog < |w.s.catalogs| && IsNew(d, w.s.chosen, w.s.catalogs[catalog].ring)
    requires id in w.jobs && w.jobs[id].target == d.drained && w.jobs[id].write.Put?
    requires Place(d.indexName, d.ring, w.jobs[id].write.entry) == d.drained
    ensures var w' := Next(d, bases, w, Deliver(id, true, false, rowid));
      id !in w'.jobs && w'.s.source == w.s.source && Has(w'.s.On(w.s.chosen.value), w.jobs[id].write.entry) && Found(d, w'.s, catalog, w.jobs[id].write.entry)
  {
    var e := w.jobs[id].write.entry;
    RepointMovesOnlyOnePosition(d.indexName, d.ring, d.drained, w.s.chosen.value, e);
    RepointMovesOnlyOne(d, w.s.chosen.value);
    var w' := Next(d, bases, w, Deliver(id, true, false, rowid));
    var ring := w'.s.catalogs[catalog].ring;
    assert w.s.chosen.value in {Place(d.indexName, ring, e)} + w'.s.catalogs[catalog].shadow && IsOn(d, w'.s, w.s.chosen.value, e);
  }

  // ---- a flush that succeeds ----

  ghost predicate CanGo(d: Drain, bases: nat, w: World, w': World)
    requires d.me < |w.s.catalogs| && d.ring != []
  {
    exists turns: seq<Turn> :: After(d, bases, w, turns) == w'
  }

  lemma {:induction false} Goes(d: Drain, bases: nat, w: World, w': World, t: Turn)
    requires d.me < |w.s.catalogs| && d.ring != [] && CanGo(d, bases, w, w')
    ensures |w'.s.catalogs| == |w.s.catalogs| && CanGo(d, bases, w, Next(d, bases, w', t))
  {
    var turns: seq<Turn> :| After(d, bases, w, turns) == w';
    assert (turns + [t])[..|turns + [t]| - 1] == turns;
    assert After(d, bases, w, turns + [t]) == Next(d, bases, w', t);
  }

  /** The jobs aimed at the drained shard are for entries that the old ring places there. */
  ghost predicate JobsPlaced(d: Drain, jobs: map<nat, Job>)
    requires d.ring != []
  {
    forall id | id in jobs && jobs[id].target == d.drained :: PlaceKey(d, d.ring, KeyOfWrite(jobs[id].write)) == d.drained
  }

  function Aimed(d: Drain, jobs: map<nat, Job>): set<nat> { set id | id in jobs && jobs[id].target == d.drained }

  lemma KeyMoves(d: Drain, ring: seq<ShardId>, substitute: ShardId, key: EntryKey)
    requires NoDuplicates(d.ring) && d.drained in d.ring && substitute !in d.ring && ring == Repointed(d.ring, d.drained, substitute)
    requires PlaceKey(d, d.ring, key) == d.drained
    ensures PlaceKey(d, ring, key) == substitute
  {
    RepointMovesOnlyOnePosition(d.indexName, d.ring, d.drained, substitute, Entry(key.table, key.indexKeyJson, [], key.partitionKey));
  }

  lemma GoesToTheSubstitute(d: Drain, s: Sys, job: Job)
    requires Inv(d, s) && s.pc.Flushing? && job.target == d.drained && PlaceKey(d, d.ring, KeyOfWrite(job.write)) == d.drained
    ensures s.chosen.Some? && s.chosen.value != d.drained && Destination(d, s, job) == s.chosen.value
  {
    assert IsNew(d, s.chosen, s.catalogs[0].ring);
    KeyMoves(d, s.catalogs[0].ring, s.chosen.value, KeyOfWrite(job.write));
  }

  /** While the flush is under way a job is delivered to the substitute. */
  lemma DeliversOne(d: Drain, bases: nat, w: World, id: nat)
    requires Inv(d, w.s) && w.s.pc.Flushing? && JobsPlaced(d, w.jobs) && id in Aimed(d, w.jobs)
    ensures var w' := Next(d, bases, w, Deliver(id, true, false, 0));
      && Inv(d, w'.s) && w'.s.pc.Flushing? && w'.jobs == w.jobs - {id} && w'.flush == w.flush && JobsPlaced(d, w'.jobs)
      && Aimed(d, w'.jobs) == Aimed(d, w.jobs) - {id}
  {
    GoesToTheSubstitute(d, w.s, w.jobs[id]);
    NextKeeps(d, w.s, EventFor(w.s.chosen.value, w.jobs[id].write, 0));
  }

  lemma {:induction false} DeliversAll(d: Drain, bases: nat, w: World, at: World) returns (w': World)
    requires d.me < |w.s.catalogs| && d.ring != [] && CanGo(d, bases, w, at)
    requires Inv(d, at.s) && at.s.pc.Flushing? && JobsPlaced(d, at.jobs)
    ensures CanGo(d, bases, w, w') && Inv(d, w'.s) && w'.s.pc.Flushing? && w'.flush == at.flush && Aimed(d, w'.jobs) == {}
    decreases |Aimed(d, at.jobs)|
  {
    if Aimed(d, at.jobs) == {} { w' := at; }
    else {
      var id :| id in Aimed(d, at.jobs);
      DeliversOne(d, bases, at, id);
      Goes(d, bases, w, at, Deliver(id, true, false, 0));
      w' := DeliversAll(d, bases, w, Next(d, bases, at, Deliver(id, true, false, 0)));
    }
  }

  lemma {:induction false} FlushesAll(d: Drain, bases: nat, w: World, at: World) returns (w': World)
    requires d.me < |w.s.catalogs| && d.ring != [] && CanGo(d, bases, w, at)
    requires Inv(d, at.s) && at.s.pc.Flushing? && Aimed(d, at.jobs) == {} && at.flush.remaining == 0 && |at.flush.none| <= bases
    ensures CanGo(d, bases, w, w') && w'.s == at.s && w'.jobs == at.jobs && w'.flush.remaining == 0 && |w'.flush.none| == bases
    decreases bases - |at.flush.none|
  {
    if |at.flush.none| == bases { w' := at; }
    else {
      forall id | id in Left(d, at.jobs, |at.flush.none|) ensures id in Aimed(d, at.jobs) {}
      assert Left(d, at.jobs, |at.flush.none|) == {};
      Goes(d, bases, w, at, FlushBase(true));
      w' := FlushesAll(d, bases, w, Next(d, bases, at, FlushBase(true)));
    }
  }

  /** A flush can always succeed: every job for the drained shard can be delivered to the
      substitute, every base shard then answers that none is left, and the copy begins. */
  lemma FlushCanSucceed(d: Drain, bases: nat, w: World) returns (w': World)
    requires Inv(d, w.s) && w.s.pc.Flushing? && w.flush == NoFlush && JobsPlaced(d, w.jobs)
    ensures CanGo(d, bases, w, w') && w'.s.pc == Copying(0, 0) && Aimed(d, w'.jobs) == {}
  {
    assert After(d, bases, w, []) == w;
    w' := DeliversAll(d, bases, w, w);
    w' := FlushesAll(d, bases, w, w');
    Goes(d, bases, w, w', FlushEnds);
    w' := Next(d, bases, w', FlushEnds);
  }
}
