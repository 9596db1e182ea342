/** Evacuating one index's entries from a shard that is being drained, while every
    catalog goes on answering lookups: fence, marker, repoint with read-shadow, flush,
    copy, delete, unshadow. One drain at a time. */
module RingEvacuation {
  import opened Basics
  import opened ShardHash

  type ShardId = Text

  /** The primary key of an entry of the index that is being moved. It does not name the
      tenant. */
  datatype EntryKey = EntryKey(table: Text, indexKeyJson: Text, partitionKey: Text)

  datatype Entry = Entry(table: Text, indexKeyJson: Text, tenant: Text, partitionKey: Text)
  {
    function Key(): EntryKey { EntryKey(table, indexKeyJson, partitionKey) }
  }

  /** One shard's entries of the index: at most one tenant under each primary key. */
  type Entries = map<EntryKey, Text>

  predicate Has(entries: Entries, e: Entry) { e.Key() in entries && entries[e.Key()] == e.tenant }

  /** Writing `x` replaces `e`: the same key for another tenant. */
  predicate TakesOver(x: Entry, e: Entry) { x.Key() == e.Key() && x.tenant != e.tenant }

  /** index_rules as one catalog holds it. */
  datatype Rule = Rule(ring: seq<ShardId>, shadow: set<ShardId>)

  datatype ShadowChange = Keep | Replace(shards: set<ShardId>) | Add(shard: ShardId) | Remove(shard: ShardId)

  /** One catalog's copy of the index's placement. */
  class IndexRule {
    var ring: seq<ShardId>
    var shadow: set<ShardId>

    constructor (ring: seq<ShardId>)
      ensures View() == Rule(ring, {})
    {
      this.ring, shadow := ring, {};
    }

    function View(): Rule
      reads this
    {
      Rule(ring, shadow)
    }

    /** Ring and shadow change together; adding or removing one shard leaves every other
        shadow as it was. */
    method ApplyIndexRingUpdate(newRing: seq<ShardId>, change: ShadowChange)
      modifies this
      ensures View() == Updated(old(View()), newRing, change)
      ensures change.Add? ==> old(shadow) <= shadow && change.shard in shadow
      ensures change.Remove? ==> change.shard !in shadow && shadow + {change.shard} == old(shadow) + {change.shard}
    {
      ring := newRing;
      match change
      case Keep =>
      case Replace(shards) => shadow := shards;
      case Add(shard) => shadow := shadow + {shard};
      case Remove(shard) => shadow := shadow - {shard};
    }
  }

  function Updated(rule: Rule, newRing: seq<ShardId>, change: ShadowChange): Rule {
    match change
    case Keep => Rule(newRing, rule.shadow)
    case Replace(shards) => Rule(newRing, shards)
    case Add(shard) => Rule(newRing, rule.shadow + {shard})
    case Remove(shard) => Rule(newRing, rule.shadow - {shard})
  }

  // ---- rings ----

  predicate NoDuplicates(ring: seq<ShardId>) { forall i, j | 0 <= i < j < |ring| :: ring[i] != ring[j] }

  function IndexOf(ring: seq<ShardId>, shard: ShardId): (pos: nat)
    ensures pos <= |ring| && (pos < |ring| <==> shard in ring)
    ensures pos < |ring| ==> ring[pos] == shard
  {
    if ring == [] then 0 else if ring[0] == shard then 0 else 1 + IndexOf(ring[1..], shard)
  }

  function Repointed(ring: seq<ShardId>, shard: ShardId, substitute: ShardId): seq<ShardId>
    requires shard in ring
  {
    ring[IndexOf(ring, shard) := substitute]
  }

  function Place(indexName: Text, ring: seq<ShardId>, e: Entry): ShardId
    requires ring != []
  {
    IndexShardForKey(e.table, indexName, e.indexKeyJson, ring)
  }

  /** Replacing one shard by a newcomer keeps the ring duplicate-free, and moves exactly
      the entries of that shard, all of them to the newcomer. */
  lemma RepointMovesOnlyOnePosition(indexName: Text, ring: seq<ShardId>, shard: ShardId, substitute: ShardId, e: Entry)
    requires NoDuplicates(ring) && shard in ring && substitute !in ring
    ensures NoDuplicates(Repointed(ring, shard, substitute)) && shard !in Repointed(ring, shard, substitute)
    ensures Place(indexName, Repointed(ring, shard, substitute), e)
         == if Place(indexName, ring, e) == shard then substitute else Place(indexName, ring, e)
  {
  }

  // ---- the evacuation ----

  /** `drained` leaves the ring `ring` of index `indexName`; catalog `me` orchestrates. */
  datatype Drain = Drain(indexName: Text, drained: ShardId, ring: seq<ShardId>, me: nat, pageSize: nat)

  datatype Pc =
    | Idle
    | Fencing(substitute: ShardId)
    | Repointing(ring: seq<ShardId>, sibling: nat)
    | Flushing
    | Copying(before: nat, cursor: nat)
    | Deleting
    | Unshadowing(ring: seq<ShardId>, sibling: nat)
    | Clearing

  /** `source` is the index's rows on the drained shard by rowid, `others` its entries
      elsewhere. `marker` is the durable marker; `chosen` remembers its substitute after
      it is cleared. `live` are the entries placed on the drained shard: all of them until
      it is fenced, and from then on those that no write at the substitute has deleted or
      replaced with another tenant's entry. */
  datatype Sys = Sys(
    catalogs: seq<Rule>, source: map<nat, Entry>, others: map<ShardId, Entries>, fenced: bool,
    marker: Option<ShardId>, chosen: Option<ShardId>, pc: Pc, live: set<Entry>)
  {
    function On(shard: ShardId): Entries { if shard in others then others[shard] else map[] }
  }

  datatype Reply = Answered | Lost(applied: bool)

  function Reached(reply: Reply): bool { reply == Answered || reply == Lost(true) }

  datatype Event =
    | ArriveUpsert(shard: ShardId, entry: Entry, rowid: nat)
    | ArriveDelete(shard: ShardId, key: EntryKey)
    | Tick(reply: Reply, candidate: ShardId, flushed: bool, page: seq<nat>, budget: bool)
    | Crash

  /** One exported page: the next rowids after the cursor, in order, none skipped. */
  ghost predicate IsPage(source: map<nat, Entry>, cursor: nat, pageSize: nat, page: seq<nat>) {
    && (forall i | 0 <= i < |page| :: page[i] in source && cursor < page[i])
    && (forall i, j | 0 <= i < j < |page| :: page[i] < page[j])
    && |page| <= pageSize
    && (forall id | id in source && cursor < id :: id in page || (|page| == pageSize && pageSize > 0 && page[|page| - 1] < id))
  }

  function Placed(d: Drain, source: map<nat, Entry>): set<Entry>
    requires d.ring != []
  {
    set id | id in source && Place(d.indexName, d.ring, source[id]) == d.drained :: source[id]
  }

  /** The rows that writing under `key` leaves alone. */
  function OtherRows(source: map<nat, Entry>, key: EntryKey): map<nat, Entry> { map id | id in source && source[id].Key() != key :: source[id] }

  function Untaken(live: set<Entry>, x: Entry): set<Entry> { set e | e in live && !TakesOver(x, e) }

  function Undeleted(live: set<Entry>, key: EntryKey): set<Entry> { set e | e in live && e.Key() != key }

  /** Insert or replace, under a rowid no other row has. A write labelled with the index is
      refused where the index is fenced. */
  function UpsertStep(d: Drain, s: Sys, shard: ShardId, e: Entry, rowid: nat): Sys
    requires d.ring != []
  {
    if shard != d.drained then
      s.(others := s.others[shard := s.On(shard)[e.Key() := e.tenant]], live := if s.chosen == Some(shard) then Untaken(s.live, e) else s.live)
    else if s.fenced || rowid == 0 || rowid in OtherRows(s.source, e.Key()) then s
    else
      var source' := OtherRows(s.source, e.Key())[rowid := e];
      s.(source := source', live := Placed(d, source'))
  }

  /** The delete names the primary key, not the tenant. */
  function DeleteStep(d: Drain, s: Sys, shard: ShardId, key: EntryKey): Sys
    requires d.ring != []
  {
    if shard != d.drained then
      s.(others := s.others[shard := s.On(shard) - {key}], live := if s.chosen == Some(shard) then Undeleted(s.live, key) else s.live)
    else if s.fenced then s
    else
      var source' := OtherRows(s.source, key);
      s.(source := source', live := Placed(d, source'))
  }

  /** Once the marker stands: repoint if the drained shard is still in the ring. */
  function AfterMarker(d: Drain, s: Sys, substitute: ShardId): Pc
    requires d.me < |s.catalogs|
  {
    if d.drained in s.catalogs[d.me].ring then Repointing(Repointed(s.catalogs[d.me].ring, d.drained, substitute), 0) else Flushing
  }

  function UpdateAt(s: Sys, i: nat, ring: seq<ShardId>, change: ShadowChange): Sys
    requires i < |s.catalogs|
  {
    s.(catalogs := s.catalogs[i := Updated(s.catalogs[i], ring, change)])
  }

  /** The fan-out: the siblings one by one, then the orchestrator's own copy. */
  function FanStep(d: Drain, s: Sys, reply: Reply, ring: seq<ShardId>, sibling: nat, change: ShadowChange, here: nat -> Pc, done: Pc): Sys
    requires d.me < |s.catalogs|
  {
    if sibling >= |s.catalogs| then UpdateAt(s, d.me, ring, change).(pc := done)
    else if sibling == d.me then s.(pc := here(sibling + 1))
    else
      var s' := if Reached(reply) then UpdateAt(s, sibling, ring, change) else s;
      s'.(pc := if reply.Lost? then Idle else here(sibling + 1))
  }

  /** The import replaces, row by row, whatever has the row's key. */
  function Imported(entries: Entries, source: map<nat, Entry>, page: seq<nat>): Entries
    requires forall i | 0 <= i < |page| :: page[i] in source
  {
    if page == [] then entries
    else
      var e := source[page[|page| - 1]];
      Imported(entries, source, page[..|page| - 1])[e.Key() := e.tenant]
  }

  ghost function CopyStep(d: Drain, s: Sys, reply: Reply, page: seq<nat>, budget: bool): Sys
    requires s.pc.Copying? && s.marker.Some? && IsPage(s.source, s.pc.cursor, d.pageSize, page)
  {
    var s' := if Reached(reply) then s.(others := s.others[s.marker.value := Imported(s.On(s.marker.value), s.source, page)]) else s;
    var cursor := if page == [] then s.pc.cursor else page[|page| - 1];
    s'.(pc := if reply.Lost? then Idle
              else if |page| == d.pageSize && page != [] then Copying(s.pc.before, cursor)
              else if cursor == s.pc.before then Deleting
              else if budget then Copying(cursor, cursor) else Idle)
  }

  ghost function TickStep(d: Drain, s: Sys, reply: Reply, candidate: ShardId, flushed: bool, page: seq<nat>, budget: bool): Sys
    requires d.me < |s.catalogs| && d.ring != []
  {
    match s.pc
    case Idle =>
      if s.marker.Some? then s.(pc := AfterMarker(d, s, s.marker.value))
      else if d.drained in s.catalogs[d.me].ring && candidate !in s.catalogs[d.me].ring then s.(pc := Fencing(candidate))
      else s
    case Fencing(substitute) =>
      var s' := if Reached(reply) then s.(fenced := true) else s;
      if reply.Lost? then s'.(pc := Idle)
      else s'.(marker := Some(substitute), chosen := Some(substitute), pc := AfterMarker(d, s, substitute))
    case Repointing(ring, sibling) => FanStep(d, s, reply, ring, sibling, Add(d.drained), (i: nat) => Repointing(ring, i), Flushing)
    case Flushing => s.(pc := if reply == Answered && flushed then Copying(0, 0) else Idle)
    case Copying(_, cursor) =>
      if s.marker.Some? && IsPage(s.source, cursor, d.pageSize, page) then CopyStep(d, s, reply, page, budget) else s.(pc := Idle)
    case Deleting =>
      var s' := if Reached(reply) then s.(source := map[]) else s;
      s'.(pc := if reply.Lost? then Idle else Unshadowing(s.catalogs[d.me].ring, 0))
    case Unshadowing(ring, sibling) => FanStep(d, s, reply, ring, sibling, Remove(d.drained), (i: nat) => Unshadowing(ring, i), Clearing)
    case Clearing => s.(marker := None, pc := Idle)
  }

  ghost function Next(d: Drain, s: Sys, e: Event): Sys
    requires d.me < |s.catalogs| && d.ring != []
    ensures |Next(d, s, e).catalogs| == |s.catalogs|
  {
    match e
    case ArriveUpsert(shard, entry, rowid) => UpsertStep(d, s, shard, entry, rowid)
    case ArriveDelete(shard, key) => DeleteStep(d, s, shard, key)
    case Tick(reply, candidate, flushed, page, budget) => TickStep(d, s, reply, candidate, flushed, page, budget)
    case Crash => s.(pc := Idle)
  }

  ghost function From(d: Drain, s: Sys, run: seq<Event>): Sys
    requires d.me < |s.catalogs| && d.ring != []
    ensures |From(d, s, run).catalogs| == |s.catalogs|
  {
    if run == [] then s else Next(d, From(d, s, run[..|run| - 1]), run[|run| - 1])
  }

  /** Primary keys are unique. */
  ghost predicate Unique(source: map<nat, Entry>) {
    forall i, j | i in source && j in source && source[i].Key() == source[j].Key() :: i == j
  }

  /** Before the drain: every catalog has the same duplicate-free ring, nothing is shadowed
      or fenced for this drain, and rowids are positive. */
  ghost predicate Initial(d: Drain, s: Sys) {
    && d.me < |s.catalogs| && NoDuplicates(d.ring) && d.drained in d.ring && d.pageSize > 0
    && (forall i | 0 <= i < |s.catalogs| :: s.catalogs[i].ring == d.ring && d.drained !in s.catalogs[i].shadow)
    && !s.fenced && s.marker.None? && s.chosen.None? && s.pc == Idle
    && 0 !in s.source && Unique(s.source) && s.live == Placed(d, s.source)
  }

  // ---- what every step keeps ----

  predicate IsNew(d: Drain, chosen: Option<ShardId>, ring: seq<ShardId>) {
    d.drained in d.ring && chosen.Some? && ring == Repointed(d.ring, d.drained, chosen.value)
  }

  predicate AllNew(d: Drain, catalogs: seq<Rule>, chosen: Option<ShardId>) {
    forall i | 0 <= i < |catalogs| :: IsNew(d, chosen, catalogs[i].ring)
  }

  /** Every live entry is on the substitute. */
  ghost predicate Copied(s: Sys) { s.chosen.Some? && forall e | e in s.live :: Has(s.On(s.chosen.value), e) }

  predicate RuleOk(d: Drain, chosen: Option<ShardId>, rule: Rule, copied: bool) {
    && (rule.ring == d.ring || IsNew(d, chosen, rule.ring))
    && (IsNew(d, chosen, rule.ring) ==> d.drained in rule.shadow || copied)
  }

  ghost predicate RulesOk(d: Drain, chosen: Option<ShardId>, catalogs: seq<Rule>, copied: bool) {
    && (forall i | 0 <= i < |catalogs| :: RuleOk(d, chosen, catalogs[i], copied))
    && (d.me < |catalogs| && IsNew(d, chosen, catalogs[d.me].ring) ==> AllNew(d, catalogs, chosen))
  }

  /** The siblings the repoint has reached. */
  predicate ReachedNew(d: Drain, chosen: Option<ShardId>, catalogs: seq<Rule>, sibling: nat) {
    forall j | 0 <= j < sibling && j < |catalogs| && j != d.me :: IsNew(d, chosen, catalogs[j].ring)
  }

  /** The siblings that have dropped the shadow again. */
  predicate ReachedClear(d: Drain, catalogs: seq<Rule>, sibling: nat) {
    forall j | 0 <= j < sibling && j < |catalogs| && j != d.me :: d.drained !in catalogs[j].shadow
  }

  /** Nothing is left of the drained shard. */
  predicate AllClear(d: Drain, s: Sys) {
    s.source == map[] && forall j | 0 <= j < |s.catalogs| :: d.drained !in s.catalogs[j].shadow
  }

  /** The live rows up to the cursor are on the substitute. */
  ghost predicate CopiedUpTo(s: Sys, cursor: nat) {
    s.chosen.Some? && forall id | id in s.source && id <= cursor && s.source[id] in s.live :: Has(s.On(s.chosen.value), s.source[id])
  }

  ghost predicate PcOk(d: Drain, s: Sys) {
    match s.pc
    case Idle => true
    case Fencing(substitute) => s.marker.None? && s.chosen.None? && substitute !in d.ring
    case Repointing(ring, sibling) => s.marker.Some? && IsNew(d, s.chosen, ring) && ReachedNew(d, s.chosen, s.catalogs, sibling)
    case Flushing => s.marker.Some? && AllNew(d, s.catalogs, s.chosen)
    case Copying(_, cursor) => s.marker.Some? && AllNew(d, s.catalogs, s.chosen) && CopiedUpTo(s, cursor)
    case Deleting => s.marker.Some? && AllNew(d, s.catalogs, s.chosen) && Copied(s)
    case Unshadowing(ring, sibling) =>
      s.marker.Some? && AllNew(d, s.catalogs, s.chosen) && Copied(s) && IsNew(d, s.chosen, ring)
      && s.source == map[] && ReachedClear(d, s.catalogs, sibling)
    case Clearing => s.marker.Some? && AllNew(d, s.catalogs, s.chosen) && Copied(s) && AllClear(d, s)
  }

  /** The live entries are rows of the drained shard until those rows are deleted, which
      finds them all copied. */
  ghost predicate LiveIsReadable(d: Drain, s: Sys) {
    s.live <= s.source.Values || (s.source == map[] && AllNew(d, s.catalogs, s.chosen) && Copied(s))
  }

  ghost predicate MarkerOk(d: Drain, s: Sys) {
    && (s.chosen.Some? ==> s.fenced && s.chosen.value !in d.ring)
    && (s.marker.Some? ==> s.marker == s.chosen)
    && (s.marker.None? && s.chosen.Some? ==> AllNew(d, s.catalogs, s.chosen) && Copied(s) && AllClear(d, s))
  }

  predicate LiveIsPlaced(d: Drain, s: Sys)
    requires d.ring != []
  {
    && (!s.fenced ==> s.live == Placed(d, s.source))
    && (forall e | e in s.live :: Place(d.indexName, d.ring, e) == d.drained)
  }

  /** The invariant apart from the program counter. */
  ghost predicate Core(d: Drain, s: Sys) {
    && d.me < |s.catalogs| && NoDuplicates(d.ring) && d.drained in d.ring && d.pageSize > 0 && 0 !in s.source && Unique(s.source)
    && RulesOk(d, s.chosen, s.catalogs, Copied(s))
    && MarkerOk(d, s) && LiveIsPlaced(d, s) && LiveIsReadable(d, s)
  }

  ghost predicate Inv(d: Drain, s: Sys) { Core(d, s) && PcOk(d, s) }

  lemma InitialIsFine(d: Drain, s: Sys)
    requires Initial(d, s)
    ensures Inv(d, s)
  {
  }

  /** Writes and deletes that arrive at other shards: only the substitute matters. */
  lemma ElsewhereKeeps(d: Drain, s: Sys, shard: ShardId, entries: Entries, live: set<Entry>)
    requires Inv(d, s) && shard != d.drained && live <= s.live && (!s.fenced ==> live == s.live)
    requires s.chosen == Some(shard) ==> forall e | e in live && Has(s.On(shard), e) :: Has(entries, e)
    ensures Inv(d, s.(others := s.others[shard := entries], live := live))
  {
    var s' := s.(others := s.others[shard := entries], live := live);
    assert Copied(s) ==> Copied(s');
    assert Core(d, s');
  }

  lemma UpsertKeeps(d: Drain, s: Sys, shard: ShardId, e: Entry, rowid: nat)
    requires Inv(d, s)
    ensures Inv(d, UpsertStep(d, s, shard, e, rowid))
  {
    if shard != d.drained {
      ElsewhereKeeps(d, s, shard, s.On(shard)[e.Key() := e.tenant], if s.chosen == Some(shard) then Untaken(s.live, e) else s.live);
    } else if !s.fenced && rowid != 0 && rowid !in OtherRows(s.source, e.Key()) {
      SourceKeeps(d, s, OtherRows(s.source, e.Key())[rowid := e]);
    }
  }

  lemma DeleteKeeps(d: Drain, s: Sys, shard: ShardId, key: EntryKey)
    requires Inv(d, s)
    ensures Inv(d, DeleteStep(d, s, shard, key))
  {
    if shard != d.drained {
      ElsewhereKeeps(d, s, shard, s.On(shard) - {key}, if s.chosen == Some(shard) then Undeleted(s.live, key) else s.live);
    } else if !s.fenced {
      SourceKeeps(d, s, OtherRows(s.source, key));
    }
  }

  /** Until it is fenced the drained shard takes writes. */
  lemma SourceKeeps(d: Drain, s: Sys, source: map<nat, Entry>)
    requires Inv(d, s) && !s.fenced && 0 !in source && Unique(source)
    ensures Inv(d, s.(source := source, live := Placed(d, source)))
  {
    var s' := s.(source := source, live := Placed(d, source));
    assert s'.live <= s'.source.Values;
    assert Core(d, s');
  }

  /** The invariant apart from the program counter does not depend on it. */
  lemma PcMoves(d: Drain, s: Sys, pc: Pc)
    requires Core(d, s)
    ensures Core(d, s.(pc := pc)) && Copied(s.(pc := pc)) == Copied(s)
  {
    assert Copied(s.(pc := pc)) == Copied(s);
  }

  lemma FencingKeeps(d: Drain, s: Sys, reply: Reply)
    requires Inv(d, s) && s.pc.Fencing?
    ensures Core(d, s.(fenced := true))
    ensures Core(d, s.(fenced := true, marker := Some(s.pc.substitute), chosen := Some(s.pc.substitute)))
  {
    var s' := s.(fenced := true, marker := Some(s.pc.substitute), chosen := Some(s.pc.substitute));
    RepointMovesOnlyOne(d, s.pc.substitute);
    assert RulesOk(d, s'.chosen, s'.catalogs, Copied(s'));
  }

  lemma RepointMovesOnlyOne(d: Drain, substitute: ShardId)
    requires d.drained in d.ring && NoDuplicates(d.ring) && substitute !in d.ring
    ensures Repointed(d.ring, d.drained, substitute) != d.ring && d.drained !in Repointed(d.ring, d.drained, substitute)
  {
  }

  lemma IdleKeeps(d: Drain, s: Sys, reply: Reply, candidate: ShardId, flushed: bool, page: seq<nat>, budget: bool)
    requires Inv(d, s) && s.pc.Idle?
    ensures Inv(d, TickStep(d, s, reply, candidate, flushed, page, budget))
  {
    PcMoves(d, s, TickStep(d, s, reply, candidate, flushed, page, budget).pc);
    assert RuleOk(d, s.chosen, s.catalogs[d.me], Copied(s));
    if s.chosen.Some? { RepointMovesOnlyOne(d, s.chosen.value); }
  }

  lemma FlushingKeeps(d: Drain, s: Sys, reply: Reply, candidate: ShardId, flushed: bool, page: seq<nat>, budget: bool)
    requires Inv(d, s) && s.pc.Flushing?
    ensures Inv(d, TickStep(d, s, reply, candidate, flushed, page, budget))
  {
    PcMoves(d, s, TickStep(d, s, reply, candidate, flushed, page, budget).pc);
  }

  lemma ClearingKeeps(d: Drain, s: Sys, reply: Reply, candidate: ShardId, flushed: bool, page: seq<nat>, budget: bool)
    requires Inv(d, s) && s.pc.Clearing?
    ensures Inv(d, TickStep(d, s, reply, candidate, flushed, page, budget))
  {
    PcMoves(d, s, Idle);
    assert Copied(s.(marker := None, pc := Idle)) == Copied(s);
  }

  lemma FencingTickKeeps(d: Drain, s: Sys, reply: Reply, candidate: ShardId, flushed: bool, page: seq<nat>, budget: bool)
    requires Inv(d, s) && s.pc.Fencing?
    ensures Inv(d, TickStep(d, s, reply, candidate, flushed, page, budget))
  {
    FencingKeeps(d, s, reply);
  }

  /** One catalog takes the new ring with the shadow; the orchestrator last. */
  lemma RepointOne(d: Drain, s: Sys, i: nat, ring: seq<ShardId>)
    requires Core(d, s) && s.marker.Some? && IsNew(d, s.chosen, ring) && i < |s.catalogs|
    requires i == d.me ==> ReachedNew(d, s.chosen, s.catalogs, |s.catalogs|)
    ensures Core(d, UpdateAt(s, i, ring, Add(d.drained)))
    ensures i == d.me ==> AllNew(d, UpdateAt(s, i, ring, Add(d.drained)).catalogs, s.chosen)
  {
    var s' := UpdateAt(s, i, ring, Add(d.drained));
    assert Copied(s') == Copied(s);
    if i == d.me { assert AllNew(d, s'.catalogs, s.chosen); }
    assert AllNew(d, s.catalogs, s.chosen) ==> AllNew(d, s'.catalogs, s.chosen);
  }

  /** The fan-out has reached one catalog more. */
  lemma RepointSibling(d: Drain, s: Sys, reply: Reply)
    requires Inv(d, s) && s.pc.Repointing? && s.pc.sibling < |s.catalogs| && s.pc.sibling != d.me
    ensures Inv(d, FanStep(d, s, reply, s.pc.ring, s.pc.sibling, Add(d.drained), (i: nat) => Repointing(s.pc.ring, i), Flushing))
  {
    var ring, sibling := s.pc.ring, s.pc.sibling;
    RepointOne(d, s, sibling, ring);
    var s' := UpdateAt(s, sibling, ring, Add(d.drained));
    assert ReachedNew(d, s.chosen, s'.catalogs, sibling + 1);
  }

  lemma RepointKeeps(d: Drain, s: Sys, reply: Reply)
    requires Inv(d, s) && s.pc.Repointing?
    ensures Inv(d, FanStep(d, s, reply, s.pc.ring, s.pc.sibling, Add(d.drained), (i: nat) => Repointing(s.pc.ring, i), Flushing))
  {
    if s.pc.sibling >= |s.catalogs| { RepointOne(d, s, d.me, s.pc.ring); }
    else if s.pc.sibling != d.me { RepointSibling(d, s, reply); }
  }

  /** With everything copied, one catalog drops the shadow. */
  lemma UnshadowOne(d: Drain, s: Sys, i: nat, ring: seq<ShardId>)
    requires Core(d, s) && s.marker.Some? && IsNew(d, s.chosen, ring) && i < |s.catalogs|
    requires AllNew(d, s.catalogs, s.chosen) && Copied(s) && (i == d.me ==> ReachedClear(d, s.catalogs, |s.catalogs|))
    ensures Core(d, UpdateAt(s, i, ring, Remove(d.drained)))
    ensures ReachedClear(d, s.catalogs, i) ==> ReachedClear(d, UpdateAt(s, i, ring, Remove(d.drained)).catalogs, i + 1)
    ensures i == d.me && s.source == map[] ==> AllClear(d, UpdateAt(s, i, ring, Remove(d.drained)))
    ensures AllNew(d, UpdateAt(s, i, ring, Remove(d.drained)).catalogs, s.chosen)
  {
    var s' := UpdateAt(s, i, ring, Remove(d.drained));
    assert Copied(s') == Copied(s);
    assert AllNew(d, s'.catalogs, s.chosen);
  }

  lemma UnshadowKeeps(d: Drain, s: Sys, reply: Reply)
    requires Inv(d, s) && s.pc.Unshadowing?
    ensures Inv(d, FanStep(d, s, reply, s.pc.ring, s.pc.sibling, Remove(d.drained), (i: nat) => Unshadowing(s.pc.ring, i), Clearing))
  {
    var ring, sibling := s.pc.ring, s.pc.sibling;
    if sibling >= |s.catalogs| { UnshadowOne(d, s, d.me, ring); }
    else if sibling != d.me { UnshadowOne(d, s, sibling, ring); }
  }

  /** What a page leaves on the substitute: its own rows, and what has none of its keys. */
  lemma {:induction false} ImportedHas(entries: Entries, source: map<nat, Entry>, page: seq<nat>, e: Entry)
    requires Unique(source) && forall i | 0 <= i < |page| :: page[i] in source
    ensures Has(Imported(entries, source, page), e)
        <==> (exists i | 0 <= i < |page| :: source[page[i]] == e) || (Has(entries, e) && forall i | 0 <= i < |page| :: source[page[i]].Key() != e.Key())
  {
    if page != [] {
      var n := |page| - 1;
      ImportedHas(entries, source, page[..n], e);
      assert page == page[..n] + [page[n]];
      if source[page[n]].Key() == e.Key() {
        if source[page[n]] != e {
          assert forall i | 0 <= i < |page| && source[page[i]] == e :: page[i] == page[n];
        }
      } else {
        assert forall i | 0 <= i < |page| && i != n :: page[i] == page[..n][i];
      }
    }
  }

  function WithPage(s: Sys, page: seq<nat>): Sys
    requires s.marker.Some? && forall i | 0 <= i < |page| :: page[i] in s.source
  {
    s.(others := s.others[s.marker.value := Imported(s.On(s.marker.value), s.source, page)])
  }

  /** A page takes no live entry away: it holds no other tenant's row under its key. */
  lemma LiveSurvivesPage(d: Drain, s: Sys, page: seq<nat>, e: Entry)
    requires Core(d, s) && s.marker.Some? && (forall i | 0 <= i < |page| :: page[i] in s.source)
    requires e in s.live && Has(s.On(s.chosen.value), e)
    ensures Has(WithPage(s, page).On(s.chosen.value), e)
  {
    ImportedHas(s.On(s.chosen.value), s.source, page, e);
    if s.source != map[] {
      assert e in s.source.Values;
      var id :| id in s.source && s.source[id] == e;
      assert forall i | 0 <= i < |page| && s.source[page[i]].Key() == e.Key() :: page[i] == id;
    }
  }

  lemma ImportKeeps(d: Drain, s: Sys, page: seq<nat>)
    requires Core(d, s) && s.marker.Some? && forall i | 0 <= i < |page| :: page[i] in s.source
    ensures Core(d, WithPage(s, page))
  {
    var s' := WithPage(s, page);
    if Copied(s) {
      forall e | e in s.live ensures Has(s'.On(s.chosen.value), e) { LiveSurvivesPage(d, s, page, e); }
    }
    assert Copied(s) ==> Copied(s');
  }

  /** A page moves the cursor past exactly its own rows. */
  lemma PageAdvances(s: Sys, cursor: nat, pageSize: nat, page: seq<nat>)
    requires IsPage(s.source, cursor, pageSize, page)
    ensures var cursor' := if page == [] then cursor else page[|page| - 1];
      && (forall id | id in s.source && cursor < id <= cursor' :: id in page)
      && (|page| < pageSize ==> forall id | id in s.source :: id <= cursor')
  {
    var cursor' := if page == [] then cursor else page[|page| - 1];
    forall id | id in page ensures id <= cursor' {
      var i :| 0 <= i < |page| && page[i] == id;
      if i < |page| - 1 { assert page[i] < page[|page| - 1]; }
    }
  }

  /** The rows passed so far stay copied, and the page's own rows join them. */
  lemma PageCopies(d: Drain, s: Sys, page: seq<nat>)
    requires Inv(d, s) && s.pc.Copying? && s.marker.Some? && IsPage(s.source, s.pc.cursor, d.pageSize, page)
    ensures CopiedUpTo(WithPage(s, page), if page == [] then s.pc.cursor else page[|page| - 1])
  {
    var cursor' := if page == [] then s.pc.cursor else page[|page| - 1];
    var s' := WithPage(s, page);
    PageAdvances(s, s.pc.cursor, d.pageSize, page);
    forall id | id in s.source && id <= cursor' && s.source[id] in s.live ensures Has(s'.On(s.chosen.value), s.source[id]) {
      if id <= s.pc.cursor { LiveSurvivesPage(d, s, page, s.source[id]); }
      else {
        var i :| 0 <= i < |page| && page[i] == id;
        ImportedHas(s.On(s.chosen.value), s.source, page, s.source[id]);
      }
    }
  }

  lemma AnsweredCopyKeeps(d: Drain, s: Sys, page: seq<nat>, budget: bool)
    requires Inv(d, s) && s.pc.Copying? && s.marker.Some? && IsPage(s.source, s.pc.cursor, d.pageSize, page)
    ensures Inv(d, CopyStep(d, s, Answered, page, budget))
  {
    var cursor' := if page == [] then s.pc.cursor else page[|page| - 1];
    var s' := WithPage(s, page);
    ImportKeeps(d, s, page);
    PcMoves(d, s', CopyStep(d, s, Answered, page, budget).pc);
    PageCopies(d, s, page);
    PageAdvances(s, s.pc.cursor, d.pageSize, page);
    if |page| < d.pageSize { CopiedAll(d, s', cursor'); }
  }

  lemma CopyKeeps(d: Drain, s: Sys, reply: Reply, page: seq<nat>, budget: bool)
    requires Inv(d, s) && s.pc.Copying? && s.marker.Some? && IsPage(s.source, s.pc.cursor, d.pageSize, page)
    ensures Inv(d, CopyStep(d, s, reply, page, budget))
  {
    if reply == Answered {
      AnsweredCopyKeeps(d, s, page, budget);
    } else {
      ImportKeeps(d, s, page);
      PcMoves(d, WithPage(s, page), Idle);
      PcMoves(d, s, Idle);
    }
  }

  /** Once no row lies past the cursor, everything live has been copied. */
  lemma CopiedAll(d: Drain, s: Sys, cursor: nat)
    requires CopiedUpTo(s, cursor) && LiveIsReadable(d, s) && forall id | id in s.source :: id <= cursor
    ensures Copied(s)
  {
    if s.live <= s.source.Values {
      forall e | e in s.live ensures Has(s.On(s.chosen.value), e) {
        assert e in s.source.Values;
        var id :| id in s.source && s.source[id] == e;
      }
    }
  }

  lemma TickKeeps(d: Drain, s: Sys, reply: Reply, candidate: ShardId, flushed: bool, page: seq<nat>, budget: bool)
    requires Inv(d, s)
    ensures Inv(d, TickStep(d, s, reply, candidate, flushed, page, budget))
  {
    match s.pc
    case Repointing(_, _) => RepointKeeps(d, s, reply);
    case Unshadowing(_, _) => UnshadowKeeps(d, s, reply);
    case Copying(_, cursor) => if IsPage(s.source, cursor, d.pageSize, page) { CopyKeeps(d, s, reply, page, budget); }
    case Fencing(_) => FencingTickKeeps(d, s, reply, candidate, flushed, page, budget);
    case Deleting => DeletingKeeps(d, s, reply, candidate, flushed, page, budget);
    case Flushing => FlushingKeeps(d, s, reply, candidate, flushed, page, budget);
    case Clearing => ClearingKeeps(d, s, reply, candidate, flushed, page, budget);
    case Idle => IdleKeeps(d, s, reply, candidate, flushed, page, budget);
  }

  lemma DeletingKeeps(d: Drain, s: Sys, reply: Reply, candidate: ShardId, flushed: bool, page: seq<nat>, budget: bool)
    requires Inv(d, s) && s.pc.Deleting?
    ensures Inv(d, TickStep(d, s, reply, candidate, flushed, page, budget))
  {
  }

  lemma NextKeeps(d: Drain, s: Sys, e: Event)
    requires Inv(d, s)
    ensures Inv(d, Next(d, s, e))
  {
    match e
    case ArriveUpsert(shard, entry, rowid) => UpsertKeeps(d, s, shard, entry, rowid);
    case ArriveDelete(shard, key) => DeleteKeeps(d, s, shard, key);
    case Tick(reply, candidate, flushed, page, budget) => TickKeeps(d, s, reply, candidate, flushed, page, budget);
    case Crash =>
  }

  lemma {:induction false} RunKeeps(d: Drain, s: Sys, run: seq<Event>)
    requires Inv(d, s)
    ensures Inv(d, From(d, s, run))
  {
    if run != [] {
      RunKeeps(d, s, run[..|run| - 1]);
      NextKeeps(d, From(d, s, run[..|run| - 1]), run[|run| - 1]);
    }
  }

  // ---- what it means ----

  predicate IsOn(d: Drain, s: Sys, shard: ShardId, e: Entry) { if shard == d.drained then e in s.source.Values else Has(s.On(shard), e) }

  /** The tenant's lookup: the shard the catalog's ring names, and every shadow shard. */
  ghost predicate Found(d: Drain, s: Sys, catalog: nat, e: Entry)
    requires catalog < |s.catalogs|
  {
    var rule := s.catalogs[catalog];
    rule.ring != [] && exists shard | shard in {Place(d.indexName, rule.ring, e)} + rule.shadow :: IsOn(d, s, shard, e)
  }

  lemma LiveIsFound(d: Drain, s: Sys, catalog: nat, e: Entry)
    requires Inv(d, s) && catalog < |s.catalogs| && e in s.live
    ensures Found(d, s, catalog, e)
  {
    var rule := s.catalogs[catalog];
    assert RuleOk(d, s.chosen, rule, Copied(s));
    if rule.ring == d.ring {
      assert IsOn(d, s, d.drained, e) by {
        if s.chosen.Some? { RepointMovesOnlyOne(d, s.chosen.value); }
        assert !AllNew(d, s.catalogs, s.chosen);
      }
    } else {
      RepointMovesOnlyOnePosition(d.indexName, d.ring, d.drained, s.chosen.value, e);
      if Copied(s) {
        RepointMovesOnlyOne(d, s.chosen.value);
        assert IsOn(d, s, s.chosen.value, e);
      } else {
        assert IsOn(d, s, d.drained, e);
      }
    }
  }

  /** No entry is ever hidden: at every moment of every run, through every catalog, each
      entry that was on the drained shard when its index was fenced is found, unless a
      write at the substitute has since deleted it or replaced it with another tenant's
      entry. */
  lemma {:induction false} NoEntryIsHidden(d: Drain, s: Sys, run: seq<Event>, catalog: nat, e: Entry)
    requires Initial(d, s) && catalog < |s.catalogs| && e in From(d, s, run).live
    ensures Found(d, From(d, s, run), catalog, e)
  {
    InitialIsFine(d, s);
    RunKeeps(d, s, run);
    LiveIsFound(d, From(d, s, run), catalog, e);
  }

  /** An entry elsewhere is looked up where it always was, through every catalog, and all
      rings stay duplicate-free. */
  lemma {:induction false} OtherEntriesStay(d: Drain, s: Sys, run: seq<Event>, catalog: nat, e: Entry)
    requires Initial(d, s) && catalog < |s.catalogs|
    ensures var ring := From(d, s, run).catalogs[catalog].ring;
      ring != [] && NoDuplicates(ring)
      && (Place(d.indexName, d.ring, e) != d.drained ==> Place(d.indexName, ring, e) == Place(d.indexName, d.ring, e))
  {
    InitialIsFine(d, s);
    RunKeeps(d, s, run);
    var s' := From(d, s, run);
    assert RuleOk(d, s'.chosen, s'.catalogs[catalog], Copied(s'));
    if s'.chosen.Some? { RepointMovesOnlyOnePosition(d.indexName, d.ring, d.drained, s'.chosen.value, e); }
  }

  /** When the marker is gone again, every catalog has the new ring and no shadow, nothing
      is left on the drained shard, and every live entry is where the new ring puts it;
      the next drain can start from there. */
  lemma {:induction false} DrainedIsDone(d: Drain, s: Sys, run: seq<Event>)
    requires Initial(d, s) && From(d, s, run).chosen.Some? && From(d, s, run).marker.None?
    ensures var s' := From(d, s, run);
      && AllNew(d, s'.catalogs, s'.chosen) && AllClear(d, s') && Copied(s')
      && NoDuplicates(Repointed(d.ring, d.drained, s'.chosen.value)) && d.drained !in Repointed(d.ring, d.drained, s'.chosen.value)
  {
    InitialIsFine(d, s);
    RunKeeps(d, s, run);
    RepointMovesOnlyOne(d, From(d, s, run).chosen.value);
  }

  // ---- entries of two tenants under one key ----

  /** After the drain, with no other shadow left, a live entry is hidden by exactly the
      writes that take its primary key on the substitute: another tenant's upsert of the
      key, and a delete of the key. */
  lemma HiddenIff(d: Drain, s: Sys, catalog: nat, e: Entry, x: Entry, rowid: nat, key: EntryKey)
    requires Inv(d, s) && s.chosen.Some? && s.marker.None? && catalog < |s.catalogs| && s.catalogs[catalog].shadow == {} && e in s.live
    ensures Found(d, Next(d, s, ArriveUpsert(s.chosen.value, x, rowid)), catalog, e) <==> !TakesOver(x, e)
    ensures Found(d, Next(d, s, ArriveDelete(s.chosen.value, key)), catalog, e) <==> key != e.Key()
  {
    FoundWhenDone(d, s, catalog, e);
    var upserted, deleted := UpsertStep(d, s, s.chosen.value, x, rowid), DeleteStep(d, s, s.chosen.value, key);
    UpsertKeeps(d, s, s.chosen.value, x, rowid);
    DeleteKeeps(d, s, s.chosen.value, key);
    FoundWhenDone(d, upserted, catalog, e);
    FoundWhenDone(d, deleted, catalog, e);
    assert Has(s.On(s.chosen.value), e);
  }

  /** After the drain an entry placed on the drained shard is found exactly on the
      substitute. */
  lemma FoundWhenDone(d: Drain, s: Sys, catalog: nat, e: Entry)
    requires Inv(d, s) && s.chosen.Some? && s.marker.None? && catalog < |s.catalogs| && Place(d.indexName, d.ring, e) == d.drained
    requires s.catalogs[catalog].shadow == {}
    ensures Found(d, s, catalog, e) <==> Has(s.On(s.chosen.value), e)
  {
    RepointMovesOnlyOnePosition(d.indexName, d.ring, d.drained, s.chosen.value, e);
    RepointMovesOnlyOne(d, s.chosen.value);
    var rule := s.catalogs[catalog];
    assert IsNew(d, s.chosen, rule.ring);
    assert s.chosen.value in {Place(d.indexName, rule.ring, e)} + rule.shadow;
    assert IsOn(d, s, s.chosen.value, e) <==> Has(s.On(s.chosen.value), e);
  }

  /** While the page is copied, an entry already on the substitute survives exactly if the
      page has no other tenant's row under its key. */
  lemma PageReplacesIff(d: Drain, s: Sys, page: seq<nat>, budget: bool, e: Entry)
    requires Inv(d, s) && s.pc.Copying? && s.marker.Some? && IsPage(s.source, s.pc.cursor, d.pageSize, page)
    requires Has(s.On(s.marker.value), e)
    ensures Has(CopyStep(d, s, Answered, page, budget).On(s.marker.value), e) <==> forall i | 0 <= i < |page| :: !TakesOver(s.source[page[i]], e)
  {
    ImportedHas(s.On(s.marker.value), s.source, page, e);
  }
}
