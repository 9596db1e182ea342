/** The evacuation ends when its calls are answered, and it copies only after the pending
    index jobs for the drained shard have been flushed. */
module RingDrain {
  import opened Basics
  import opened ShardHash
  import opened RingEvacuation

  // ---- ticks that are answered ----

  /** The evacuation is over: its marker is gone again. */
  predicate DrainDone(s: Sys) { s.pc.Idle? && s.marker.None? && s.chosen.Some? }

  function Past(source: map<nat, Entry>, cursor: nat): set<nat> { set id | id in source && cursor < id }

  function Siblings(s: Sys, sibling: nat): nat { if sibling < |s.catalogs| then |s.catalogs| - sibling else 0 }

  function UnshadowLeft(s: Sys, sibling: nat): nat { Siblings(s, sibling) + 2 }

  function CopyLeft(s: Sys, before: nat, cursor: nat): nat {
    |Past(s.source, cursor)| + (if before == cursor && Past(s.source, cursor) == {} then 1 else 2) + 1 + UnshadowLeft(s, 0)
  }

  function RepointLeft(s: Sys, sibling: nat): nat { Siblings(s, sibling) + 2 + CopyLeft(s, 0, 0) }

  /** At most this many answered ticks are left: catalogs to reach twice, rows past the
      cursor, and the last look that finds nothing new. */
  function TicksLeft(s: Sys): nat {
    match s.pc
    case Idle => if s.marker.Some? then 1 + RepointLeft(s, 0) else if s.chosen.Some? then 0 else 2 + RepointLeft(s, 0)
    case Fencing(_) => 1 + RepointLeft(s, 0)
    case Repointing(_, sibling) => RepointLeft(s, sibling)
    case Flushing => 1 + CopyLeft(s, 0, 0)
    case Copying(before, cursor) => CopyLeft(s, before, cursor)
    case Deleting => 1 + UnshadowLeft(s, 0)
    case Unshadowing(_, sibling) => UnshadowLeft(s, sibling)
    case Clearing => 1
  }

  /** A tick whose call is answered: a candidate outside the ring, nothing left to flush, a
      correct page, and budget to go on. */
  ghost predicate Answers(d: Drain, s: Sys, e: Event) {
    && e.Tick? && e.reply == Answered && e.flushed && e.budget && e.candidate !in d.ring
    && (s.pc.Copying? ==> IsPage(s.source, s.pc.cursor, d.pageSize, e.page))
  }

  lemma SubsetIsNoLarger<T>(a: set<T>, b: set<T>)
    requires a <= b
    ensures |a| <= |b| && (a != b ==> |a| < |b|)
  {
    assert b == a + (b - a);
  }

  /** A page leaves fewer rows past the cursor, and a short one none. */
  lemma PageShrinks(source: map<nat, Entry>, cursor: nat, pageSize: nat, page: seq<nat>)
    requires IsPage(source, cursor, pageSize, page)
    ensures page != [] ==> page[|page| - 1] > cursor && |Past(source, page[|page| - 1])| < |Past(source, cursor)|
    ensures |page| < pageSize ==> Past(source, if page == [] then cursor else page[|page| - 1]) == {}
  {
    if page != [] {
      var last := page[|page| - 1];
      assert last in Past(source, cursor) && last !in Past(source, last);
      SubsetIsNoLarger(Past(source, last), Past(source, cursor));
    }
    if |page| < pageSize {
      var cursor' := if page == [] then cursor else page[|page| - 1];
      forall id | id in source ensures id <= cursor' {
        if cursor < id {
          assert id in page;
          var i :| 0 <= i < |page| && page[i] == id;
          if i < |page| - 1 { assert page[i] < page[|page| - 1]; }
        }
      }
    }
  }

  lemma CopyProgress(d: Drain, s: Sys, e: Event)
    requires Inv(d, s) && s.pc.Copying? && s.pc.before <= s.pc.cursor && Answers(d, s, e)
    ensures TicksLeft(Next(d, s, e)) < TicksLeft(s)
  {
    PageShrinks(s.source, s.pc.cursor, d.pageSize, e.page);
  }

  lemma FanProgress(d: Drain, s: Sys, e: Event)
    requires Inv(d, s) && (s.pc.Repointing? || s.pc.Unshadowing?) && Answers(d, s, e)
    ensures TicksLeft(Next(d, s, e)) < TicksLeft(s)
  {
    var s' := Next(d, s, e);
    assert s'.source == s.source && |s'.catalogs| == |s.catalogs|;
  }

  lemma OtherProgress(d: Drain, s: Sys, e: Event)
    requires Inv(d, s) && (s.pc.Idle? || s.pc.Fencing? || s.pc.Flushing? || s.pc.Deleting? || s.pc.Clearing?) && Answers(d, s, e) && !DrainDone(s)
    ensures TicksLeft(Next(d, s, e)) < TicksLeft(s)
  {
    assert RuleOk(d, s.chosen, s.catalogs[d.me], Copied(s));
    var s' := Next(d, s, e);
    if s.pc.Flushing? { assert Past(s'.source, 0) == Past(s.source, 0); }
  }

  predicate Ordered(s: Sys) { s.pc.Copying? ==> s.pc.before <= s.pc.cursor }

  lemma NextOrdered(d: Drain, s: Sys, e: Event)
    requires Inv(d, s) && Ordered(s)
    ensures Ordered(Next(d, s, e))
  {
    if e.Tick? && s.pc.Copying? && s.marker.Some? && IsPage(s.source, s.pc.cursor, d.pageSize, e.page) { PageShrinks(s.source, s.pc.cursor, d.pageSize, e.page); }
  }

  /** An answered tick brings the evacuation nearer to its end, and what is over stays over. */
  lemma TickProgress(d: Drain, s: Sys, e: Event)
    requires Inv(d, s) && Ordered(s) && Answers(d, s, e)
    ensures if DrainDone(s) then Next(d, s, e) == s else TicksLeft(Next(d, s, e)) < TicksLeft(s)
  {
    if DrainDone(s) { DoneStays(d, s, e); }
    else if s.pc.Copying? { CopyProgress(d, s, e); }
    else if s.pc.Repointing? || s.pc.Unshadowing? { FanProgress(d, s, e); }
    else { OtherProgress(d, s, e); }
  }

  lemma DoneStays(d: Drain, s: Sys, e: Event)
    requires Inv(d, s) && DrainDone(s) && e.Tick?
    ensures Next(d, s, e) == s
  {
    assert IsNew(d, s.chosen, s.catalogs[d.me].ring);
    RepointMovesOnlyOne(d, s.chosen.value);
  }

  /** The tick makes a remote call here. */
  predicate CallsOut(d: Drain, s: Sys) {
    s.pc.Fencing? || s.pc.Flushing? || s.pc.Copying? || s.pc.Deleting?
    || ((s.pc.Repointing? || s.pc.Unshadowing?) && s.pc.sibling != d.me && s.pc.sibling < |s.catalogs|)
  }

  /** A call without an answer ends the tick with marker, substitute and own copy as they
      were; so does a flush that left something, and a page budget that is spent. */
  lemma FailedCallEndsTheTick(d: Drain, s: Sys, e: Event)
    requires Inv(d, s) && Ordered(s) && e.Tick? && CallsOut(d, s)
    ensures var s' := Next(d, s, e); e.reply.Lost? ==> s'.pc == Idle && s'.marker == s.marker && s'.chosen == s.chosen && s'.catalogs[d.me] == s.catalogs[d.me]
    ensures s.pc.Flushing? && !e.flushed ==> Next(d, s, e) == s.(pc := Idle)
    ensures s.pc.Copying? && !e.budget ==> Next(d, s, e).pc.Copying? || Next(d, s, e).pc.Deleting? || Next(d, s, e).pc.Idle?
    ensures s.pc.Copying? && !e.budget && Next(d, s, e).pc.Copying? ==> Next(d, s, e).pc.before == s.pc.before
  {
  }

  lemma UpsertAddsOne(source: map<nat, Entry>, key: EntryKey, e: Entry, rowid: nat)
    ensures |Past(OtherRows(source, key), 0)| <= |Past(source, 0)|
    ensures |Past(OtherRows(source, key)[rowid := e], 0)| <= |Past(source, 0)| + 1
  {
    var rest := OtherRows(source, key);
    SubsetIsNoLarger(Past(rest, 0), Past(source, 0));
    SubsetIsNoLarger(Past(rest[rowid := e], 0), Past(rest, 0) + {rowid});
  }

  /** A write to the shard before it is fenced adds at most two ticks. */
  lemma SourceCosts(d: Drain, s: Sys, source: map<nat, Entry>, live: set<Entry>)
    requires Inv(d, s) && !s.fenced && |Past(source, 0)| <= |Past(s.source, 0)| + 1
    ensures var s' := s.(source := source, live := live); TicksLeft(s') <= TicksLeft(s) + 2 && !DrainDone(s') && !DrainDone(s)
  {
    assert s.chosen.None? && (s.pc.Idle? || s.pc.Fencing?);
    CopyGrows(s, s.(source := source, live := live));
  }

  /** And any other write none. */
  lemma WriteCosts(d: Drain, s: Sys, e: Event)
    requires Inv(d, s) && (e.ArriveUpsert? || e.ArriveDelete?)
    ensures TicksLeft(Next(d, s, e)) <= TicksLeft(s) + (if s.fenced then 0 else 2) && DrainDone(Next(d, s, e)) == DrainDone(s)
  {
    if Next(d, s, e).source == s.source { SameLeft(s, Next(d, s, e)); }
    else if e.ArriveUpsert? {
      UpsertAddsOne(s.source, e.entry.Key(), e.entry, e.rowid);
      SourceCosts(d, s, Next(d, s, e).source, Next(d, s, e).live);
    } else {
      UpsertAddsOne(s.source, e.key, Entry([], [], [], []), 0);
      SourceCosts(d, s, Next(d, s, e).source, Next(d, s, e).live);
    }
  }

  lemma SameLeft(s: Sys, s': Sys)
    requires s'.source == s.source && s'.catalogs == s.catalogs && s'.pc == s.pc && s'.marker == s.marker && s'.chosen == s.chosen
    ensures TicksLeft(s') == TicksLeft(s) && DrainDone(s') == DrainDone(s)
  {
  }

  lemma CopyGrows(s: Sys, s': Sys)
    requires |Past(s'.source, 0)| <= |Past(s.source, 0)| + 1 && |s'.catalogs| == |s.catalogs|
    ensures CopyLeft(s', 0, 0) <= CopyLeft(s, 0, 0) + 2
  {
  }

  // ---- whole runs ----

  /** Answered ticks, with writes of any kind in between. */
  ghost predicate AllAnswered(d: Drain, s: Sys, run: seq<Event>)
    requires d.me < |s.catalogs| && d.ring != []
  {
    run != [] ==>
      var e := run[|run| - 1];
      AllAnswered(d, s, run[..|run| - 1]) && (if e.Tick? then Answers(d, From(d, s, run[..|run| - 1]), e) else !e.Crash?)
  }

  function Writes(run: seq<Event>): nat {
    if run == [] then 0 else Writes(run[..|run| - 1]) + (if run[|run| - 1].Tick? then 0 else 1)
  }

  lemma {:induction false} RunProgress(d: Drain, s: Sys, run: seq<Event>)
    requires Inv(d, s) && Ordered(s) && AllAnswered(d, s, run)
    ensures var s' := From(d, s, run);
      Inv(d, s') && Ordered(s') && (DrainDone(s') || TicksLeft(s') + |run| <= TicksLeft(s) + 3 * Writes(run))
  {
    if run != [] {
      var n := |run| - 1;
      var at, e := From(d, s, run[..n]), run[n];
      RunProgress(d, s, run[..n]);
      NextKeeps(d, at, e);
      NextOrdered(d, at, e);
      if e.Tick? { TickProgress(d, at, e); } else { WriteCosts(d, at, e); }
    }
  }

  /** Every evacuation ends. From any state of any run - after crashes and lost replies too -
      answered ticks bring it to its end: at most twice the catalogs, once per row of the
      drained shard, nine more, and two for each write that comes in between. */
  lemma {:induction false} DrainEnds(d: Drain, start: Sys, before: seq<Event>, run: seq<Event>)
    requires Initial(d, start)
    requires AllAnswered(d, From(d, start, before), run) && |run| > TicksLeft(From(d, start, before)) + 3 * Writes(run)
    ensures DrainDone(From(d, From(d, start, before), run))
  {
    InitialIsFine(d, start);
    RunKeeps(d, start, before);
    OrderedRun(d, start, before);
    RunProgress(d, From(d, start, before), run);
  }

  lemma {:induction false} OrderedRun(d: Drain, start: Sys, run: seq<Event>)
    requires Inv(d, start) && Ordered(start)
    ensures Ordered(From(d, start, run))
  {
    if run != [] {
      OrderedRun(d, start, run[..|run| - 1]);
      RunKeeps(d, start, run[..|run| - 1]);
      NextOrdered(d, From(d, start, run[..|run| - 1]), run[|run| - 1]);
    }
  }

  lemma {:induction false} BoundIs(d: Drain, s: Sys)
    requires Inv(d, s)
    ensures TicksLeft(s) <= 2 * |s.catalogs| + |s.source| + 9
  {
    SubsetIsNoLarger(Past(s.source, 0), s.source.Keys);
    if s.pc.Copying? { SubsetIsNoLarger(Past(s.source, s.pc.cursor), s.source.Keys); }
    assert |s.source| == |s.source.Keys|;
  }

  lemma {:induction false} Least(ids: set<nat>) returns (id: nat)
    requires ids != {}
    ensures id in ids && forall i | i in ids :: id <= i
    decreases |ids|
  {
    id :| id in ids;
    if ids - {id} != {} {
      var other := Least(ids - {id});
      assert forall i | i in ids :: i == id || i in ids - {id};
      if other < id { id := other; }
    }
  }

  /** There is a page to answer with. */
  lemma {:induction false} PageExists(source: map<nat, Entry>, cursor: nat, pageSize: nat) returns (page: seq<nat>)
    requires pageSize > 0
    ensures IsPage(source, cursor, pageSize, page)
    decreases pageSize
  {
    if Past(source, cursor) == {} {
      page := [];
      assert forall id | id in source && cursor < id :: id in Past(source, cursor);
    } else {
      var first := Least(Past(source, cursor));
      assert forall id | id in source && cursor < id :: id in Past(source, cursor);
      if pageSize == 1 { page := [first]; }
      else {
        var rest := PageExists(source, first, pageSize - 1);
        page := [first] + rest;
        assert forall i | 0 < i < |page| :: page[i] == rest[i - 1];
      }
    }
  }

  /** So from every state of every run some answered ticks do end it. */
  lemma {:induction false} DrainCanEnd(d: Drain, s: Sys, candidate: ShardId) returns (run: seq<Event>)
    requires Inv(d, s) && Ordered(s) && candidate !in d.ring
    ensures AllAnswered(d, s, run) && DrainDone(From(d, s, run)) && |run| <= TicksLeft(s)
    decreases TicksLeft(s)
  {
    if DrainDone(s) { run := []; }
    else {
      var page := if s.pc.Copying? then PageFor(d, s) else [];
      var e := Tick(Answered, candidate, true, page, true);
      TickProgress(d, s, e);
      NextKeeps(d, s, e);
      NextOrdered(d, s, e);
      var rest := DrainCanEnd(d, Next(d, s, e), candidate);
      run := [e] + rest;
      AnsweredFirst(d, s, e, rest);
    }
  }

  ghost function PageFor(d: Drain, s: Sys): (page: seq<nat>)
    requires s.pc.Copying? && d.pageSize > 0
    ensures IsPage(s.source, s.pc.cursor, d.pageSize, page)
  {
    assert exists page: seq<nat> :: IsPage(s.source, s.pc.cursor, d.pageSize, page) by {
      var page := PageExists(s.source, s.pc.cursor, d.pageSize);
    }
    var page: seq<nat> :| IsPage(s.source, s.pc.cursor, d.pageSize, page);
    page
  }

  lemma {:induction false} AnsweredFirst(d: Drain, s: Sys, e: Event, rest: seq<Event>)
    requires d.me < |s.catalogs| && d.ring != [] && Answers(d, s, e) && AllAnswered(d, Next(d, s, e), rest)
    ensures AllAnswered(d, s, [e] + rest) && From(d, s, [e] + rest) == From(d, Next(d, s, e), rest)
  {
    if rest == [] {
      assert [e] + rest == [e] && [e][..0] == [];
    } else {
      var n := |rest| - 1;
      AnsweredFirst(d, s, e, rest[..n]);
      assert ([e] + rest)[..|rest|] == [e] + rest[..n];
    }
  }
}
