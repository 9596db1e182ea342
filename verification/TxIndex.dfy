/** A transaction batch and the index intents that ride along: the gateway simulates the
    rows, derives index changes from the simulation and regroups everything by shard. */
module TxIndex {
  import opened Basics
  import opened StructuredOp

  type ShardId = string
  type KeyTuple = seq<Value>

  datatype IndexDef = IndexDef(name: string, columns: seq<Column>, ring: seq<ShardId>)

  datatype TableDef = TableDef(pkColumn: Column, indexes: seq<IndexDef>)
  {
    function Indexed(): set<Column> { set i, c | i in indexes && c in i.columns :: c }
  }

  /** The primary key of an index entry. It does not name the tenant. */
  datatype EntryKey = EntryKey(table: string, index: string, key: KeyTuple, partitionKey: string)

  /** What routing answers throughout one batch: table definitions, the shard of a row and
      the shard of an index key in a ring. */
  datatype World = World(tables: map<string, TableDef>, home: RowKey -> ShardId, place: (string, string, KeyTuple, seq<ShardId>) -> ShardId)

  datatype Intent = Base(m: Mutation) | Put(entry: EntryKey, tenant: string) | Drop(entry: EntryKey)

  datatype Addressed = Addressed(shard: ShardId, intent: Intent)

  /** Where a row lies: one row per shard, table and partition key, whoever's it is. */
  datatype Slot = Slot(shard: ShardId, table: string, partitionKey: string)

  /** A row and the tenant recorded as its owner: the one that last changed it. */
  datatype Owned = Owned(tenant: string, row: Row)

  type Rows = map<Slot, Owned>

  function SlotOf(w: World, k: RowKey): Slot { Slot(w.home(k), k.table, k.partitionKey) }

  function RowIn(rows: Rows, at: Slot): Option<Row> { if at in rows then Some(rows[at].row) else None }

  // ---- index deltas ----

  datatype Delta = Delta(index: IndexDef, oldKey: Option<KeyTuple>, newKey: Option<KeyTuple>)

  function KeyOf(columns: seq<Column>, row: Row): KeyTuple {
    if columns == [] then [] else KeyOf(columns[..|columns| - 1], row) + [Get(row, columns[|columns| - 1])]
  }

  /** The caller's values over the prior row. */
  function Over(before: Option<Row>, values: Row): Row { (if before.Some? then before.value else map[]) + values }

  function OldKey(index: IndexDef, before: Option<Row>): Option<KeyTuple> {
    if before.Some? then Some(KeyOf(index.columns, before.value)) else None
  }

  function NewKey(index: IndexDef, op: Op, before: Option<Row>, values: Row): Option<KeyTuple> {
    if op == Delete then None else Some(KeyOf(index.columns, Over(before, values)))
  }

  function DeltasOf(indexes: seq<IndexDef>, op: Op, before: Option<Row>, values: Row): seq<Delta> {
    if indexes == [] || (op == Update && before.None?) then []
    else
      var index := indexes[|indexes| - 1];
      var rest := DeltasOf(indexes[..|indexes| - 1], op, before, values);
      var oldKey, newKey := OldKey(index, before), NewKey(index, op, before, values);
      if oldKey == newKey then rest else rest + [Delta(index, oldKey, newKey)]
  }

  method ComputeIndexDeltas(indexes: seq<IndexDef>, op: Op, before: Option<Row>, values: Row) returns (deltas: seq<Delta>)
    ensures deltas == DeltasOf(indexes, op, before, values)
    ensures forall d | d in deltas :: d.index in indexes && d.oldKey != d.newKey
  {
    deltas := [];
    if op == Update && before.None? { return; }
    for i := 0 to |indexes|
      invariant deltas == DeltasOf(indexes[..i], op, before, values)
      invariant forall d | d in deltas :: d.index in indexes && d.oldKey != d.newKey
    {
      assert indexes[..i + 1][..i] == indexes[..i];
      var oldKey := OldKey(indexes[i], before);
      var newKey := NewKey(indexes[i], op, before, values);
      if oldKey != newKey { deltas := deltas + [Delta(indexes[i], oldKey, newKey)]; }
    }
    assert indexes[..|indexes|] == indexes;
  }

  // ---- the plan of a batch ----

  type Simulated = map<RowKey, Option<Row>>

  predicate JsMatches(row: Option<Row>, where_: map<Column, Value>) {
    row.Some? && forall c | c in where_ :: c in row.value && row.value[c] == where_[c]
  }

  /** The pre-read selects the indexed columns only. */
  function Project(row: Option<Row>, columns: set<Column>): Option<Row> {
    if row.None? then None else Some(map c | c in columns :: Get(row.value, c))
  }

  /** The prior state the gateway works with: simulated if the batch touched the row
      before, else read from the database, whoever owns the row. An insert reads nothing. */
  function Raw(w: World, def: TableDef, rows: Rows, sim: Simulated, m: Mutation): Option<Row> {
    if def.Indexed() == {} || m.op == Insert then None
    else if m.Key() in sim then sim[m.Key()]
    else Project(RowIn(rows, SlotOf(w, m.Key())), def.Indexed())
  }

  predicate Matched(raw: Option<Row>, m: Mutation) { m.op == Update || m.op == Delete ==> JsMatches(raw, m.where_) }

  function Before(raw: Option<Row>, m: Mutation): Option<Row> { if Matched(raw, m) then raw else None }

  function NextRow(def: TableDef, raw: Option<Row>, m: Mutation): Option<Row> {
    if m.op == Insert then Some(Written(m, def.pkColumn))
    else if !Matched(raw, m) then raw
    else if m.op == Delete then None
    else Some(Over(raw, Written(m, def.pkColumn)))
  }

  function EntryAt(m: Mutation, index: IndexDef, key: KeyTuple): EntryKey { EntryKey(m.table, index.name, key, m.partitionKey) }

  function PlaceOf(w: World, m: Mutation, index: IndexDef, key: KeyTuple): ShardId { w.place(m.table, index.name, key, index.ring) }

  /** Remove the old entry where it is placed, then write the new one where it is placed.
      An index without a ring is left alone. */
  function DeltaIntents(w: World, m: Mutation, deltas: seq<Delta>): seq<Addressed> {
    if deltas == [] then []
    else
      var d := deltas[|deltas| - 1];
      var rest := DeltaIntents(w, m, deltas[..|deltas| - 1]);
      if d.index.ring == [] then rest
      else rest + DropIntents(w, m, d) + PutIntents(w, m, d)
  }

  function DropIntents(w: World, m: Mutation, d: Delta): seq<Addressed> {
    if d.oldKey.None? then []
    else [Addressed(PlaceOf(w, m, d.index, d.oldKey.value), Drop(EntryAt(m, d.index, d.oldKey.value)))]
  }

  function PutIntents(w: World, m: Mutation, d: Delta): seq<Addressed> {
    if d.newKey.None? then []
    else [Addressed(PlaceOf(w, m, d.index, d.newKey.value), Put(EntryAt(m, d.index, d.newKey.value), m.tenant))]
  }

  datatype Planned = Planned(intents: seq<Addressed>, sim: Simulated)

  function StepIntents(w: World, def: TableDef, raw: Option<Row>, m: Mutation): seq<Addressed> {
    [Addressed(w.home(m.Key()), Base(m))] + DeltaIntents(w, m, DeltasOf(def.indexes, m.op, Before(raw, m), m.values))
  }

  function PlanStep(w: World, rows: Rows, p: Planned, m: Mutation): Planned
    requires m.table in w.tables
  {
    var def := w.tables[m.table];
    var raw := Raw(w, def, rows, p.sim, m);
    Planned(p.intents + StepIntents(w, def, raw, m), if def.Indexed() == {} then p.sim else p.sim[m.Key() := NextRow(def, raw, m)])
  }

  predicate Routable(w: World, ms: seq<Mutation>) { forall i | 0 <= i < |ms| :: ms[i].table in w.tables }

  /** The intents of a batch in batch order. */
  function Plan(w: World, rows: Rows, ms: seq<Mutation>): Planned
    requires Routable(w, ms)
  {
    if ms == [] then Planned([], map[]) else PlanStep(w, rows, Plan(w, rows, ms[..|ms| - 1]), ms[|ms| - 1])
  }

  // ---- running intents ----

  /** Rows and index entries wherever they are; `broken` are the places where some
      statement met a constraint error, which fails the whole transaction. */
  datatype Store = Store(rows: Rows, broken: set<Slot>, entries: map<(ShardId, EntryKey), string>)

  /** The rows once a tenant's statement has left `row` at `at`. */
  function Stored(rows: Rows, at: Slot, tenant: string, row: Option<Row>, affected: bool): Rows {
    if row.None? then rows - {at} else rows[at := Owned(if !affected && at in rows then rows[at].tenant else tenant, row.value)]
  }

  function Apply(w: World, s: Store, a: Addressed): Store {
    match a.intent
    case Put(entry, tenant) => s.(entries := s.entries[(a.shard, entry) := tenant])
    case Drop(entry) => s.(entries := s.entries - {(a.shard, entry)})
    case Base(m) => ApplyBase(w, s, Slot(a.shard, m.table, m.partitionKey), m)
  }

  function ApplyBase(w: World, s: Store, at: Slot, m: Mutation): Store {
    if at in s.broken || m.table !in w.tables then s
    else match Effect(RowIn(s.rows, at), m, w.tables[m.table].pkColumn)
      case ConstraintError => s.(broken := s.broken + {at})
      case Ran(row, affected) => s.(rows := Stored(s.rows, at, m.tenant, row, affected))
  }

  function Run(w: World, s: Store, intents: seq<Addressed>): Store {
    if intents == [] then s else Apply(w, Run(w, s, intents[..|intents| - 1]), intents[|intents| - 1])
  }

  // ---- one mutation ----

  /** What the index derivation needs of a caller: conditions only on indexed columns and
      never against NULL, and an upsert that conflicts on the partition key. */
  predicate Covered(def: TableDef, m: Mutation) {
    && Validate(m, def.pkColumn, def.Indexed()) == Accepted
    && (forall c | c in m.where_ :: c in def.Indexed() && m.where_[c] != Null)
    && (m.op == Upsert ==> def.pkColumn in ConflictTarget(m, def.pkColumn))
  }

  /** The gateway's row agrees with the stored one on every indexed column. */
  predicate Agrees(def: TableDef, raw: Option<Row>, stored: Option<Row>) {
    && raw.Some? == stored.Some?
    && (raw.Some? ==> forall c | c in def.Indexed() :: c in raw.value && raw.value[c] == Get(stored.value, c))
  }

  predicate IsKeyed(def: TableDef, stored: Option<Row>, pk: string) { stored.Some? ==> Get(stored.value, def.pkColumn) == Val(pk) }

  function KeyIn(index: IndexDef, row: Option<Row>): Option<KeyTuple> { OldKey(index, row) }

  lemma {:induction false} KeyOfAgrees(columns: seq<Column>, a: Row, b: Row)
    requires forall c | c in columns :: Get(a, c) == Get(b, c)
    ensures KeyOf(columns, a) == KeyOf(columns, b)
  {
    if columns != [] { KeyOfAgrees(columns[..|columns| - 1], a, b); }
  }

  lemma MatchesAgree(def: TableDef, raw: Option<Row>, stored: Option<Row>, m: Mutation)
    requires Covered(def, m) && Agrees(def, raw, stored) && IsKeyed(def, stored, m.partitionKey)
    ensures JsMatches(raw, m.where_) <==> stored.Some? && SqlMatches(stored.value, def.pkColumn, m.where_)
  {
    if stored.Some? && def.pkColumn in m.where_ { assert m.where_[def.pkColumn] == Val(m.partitionKey); }
  }

  /** The simulation takes the step the statement takes. */
  lemma SimulationFollows(def: TableDef, raw: Option<Row>, stored: Option<Row>, m: Mutation)
    requires Covered(def, m) && IsKeyed(def, stored, m.partitionKey) && Effect(stored, m, def.pkColumn).Ran?
    requires if m.op == Insert then raw == None else Agrees(def, raw, stored)
    ensures var stored' := Effect(stored, m, def.pkColumn).row;
      Agrees(def, NextRow(def, raw, m), stored') && IsKeyed(def, stored', m.partitionKey)
  {
    if m.op != Insert { MatchesAgree(def, raw, stored, m); }
  }

  lemma OverAgrees(def: TableDef, raw: Option<Row>, stored: Option<Row>, m: Mutation, c: Column)
    requires Covered(def, m) && IsKeyed(def, stored, m.partitionKey) && Effect(stored, m, def.pkColumn).Ran?
    requires if m.op == Insert then raw == None else Agrees(def, raw, stored)
    requires m.op != Delete && Effect(stored, m, def.pkColumn).row.Some? && (m.op == Update ==> JsMatches(raw, m.where_)) && c in def.Indexed()
    ensures Get(Over(raw, m.values), c) == Get(Effect(stored, m, def.pkColumn).row.value, c)
  {
    if m.op == Update { MatchesAgree(def, raw, stored, m); }
    if c == def.pkColumn && c in m.values { assert m.values[c] == Val(m.partitionKey); }
  }

  /** So the derived keys are the keys of the stored row before and after, or there are
      none because the statement does nothing. */
  lemma KeysFollow(def: TableDef, raw: Option<Row>, stored: Option<Row>, m: Mutation, index: IndexDef)
    requires Covered(def, m) && IsKeyed(def, stored, m.partitionKey) && Effect(stored, m, def.pkColumn).Ran?
    requires if m.op == Insert then raw == None else Agrees(def, raw, stored)
    requires index in def.indexes
    ensures var stored' := Effect(stored, m, def.pkColumn).row;
      if Matched(raw, m) then
        OldKey(index, Before(raw, m)) == KeyIn(index, stored) && NewKey(index, m.op, Before(raw, m), m.values) == KeyIn(index, stored')
      else stored' == stored && Before(raw, m) == None
  {
    forall c | c in index.columns ensures c in def.Indexed() {}
    if m.op != Insert { MatchesAgree(def, raw, stored, m); }
    if Matched(raw, m) {
      if m.op != Insert && raw.Some? { KeyOfAgrees(index.columns, raw.value, stored.value); }
      if m.op != Delete {
        forall c | c in index.columns ensures Get(Over(raw, m.values), c) == Get(Effect(stored, m, def.pkColumn).row.value, c) {
          OverAgrees(def, raw, stored, m, c);
        }
        KeyOfAgrees(index.columns, Over(raw, m.values), Effect(stored, m, def.pkColumn).row.value);
      }
    }
  }

  // ---- what the index intents of one mutation write ----

  function Find(indexes: seq<IndexDef>, name: string): Option<IndexDef> {
    if indexes == [] then None
    else if indexes[|indexes| - 1].name == name then Some(indexes[|indexes| - 1])
    else Find(indexes[..|indexes| - 1], name)
  }

  predicate NamesAreUnique(indexes: seq<IndexDef>) { forall i, j | 0 <= i < j < |indexes| :: indexes[i].name != indexes[j].name }

  function Lookup(s: Store, shard: ShardId, e: EntryKey): Option<string> {
    if (shard, e) in s.entries then Some(s.entries[(shard, e)]) else None
  }

  /** What becomes of one entry cell: only the placed cell of an index of this row whose
      key changes is written. */
  function CellAfter(w: World, m: Mutation, indexes: seq<IndexDef>, before: Option<Row>, shard: ShardId, e: EntryKey, was: Option<string>): Option<string> {
    var f := Find(indexes, e.index);
    if e.table != m.table || e.partitionKey != m.partitionKey || f.None? || f.value.ring == [] || shard != PlaceOf(w, m, f.value, e.key) then was
    else if m.op == Update && before.None? then was
    else
      var oldKey, newKey := OldKey(f.value, before), NewKey(f.value, m.op, before, m.values);
      if oldKey == newKey then was
      else if newKey == Some(e.key) then Some(m.tenant)
      else if oldKey == Some(e.key) then None
      else was
  }

  lemma {:induction false} RunJoin(w: World, s: Store, a: seq<Addressed>, b: seq<Addressed>)
    ensures Run(w, s, a + b) == Run(w, Run(w, s, a), b)
  {
    if b == [] {
      assert a + b == a;
    } else {
      var n := |b| - 1;
      RunJoin(w, s, a, b[..n]);
      assert (a + b)[..|a + b| - 1] == a + b[..n];
    }
  }

  lemma RunOne(w: World, s: Store, a: Addressed)
    ensures Run(w, s, [a]) == Apply(w, s, a)
  {
    assert [a][..0] == [];
  }

  /** What one delta makes of a cell. */
  function CellAfterDelta(w: World, m: Mutation, d: Delta, shard: ShardId, e: EntryKey, was: Option<string>): Option<string> {
    if e.table != m.table || e.partitionKey != m.partitionKey || e.index != d.index.name || shard != PlaceOf(w, m, d.index, e.key) then was
    else if d.newKey == Some(e.key) then Some(m.tenant)
    else if d.oldKey == Some(e.key) then None
    else was
  }

  /** One delta. */
  lemma DeltaWrites(w: World, m: Mutation, s: Store, d: Delta, shard: ShardId, e: EntryKey)
    requires d.oldKey != d.newKey
    ensures var s' := Run(w, s, DropIntents(w, m, d) + PutIntents(w, m, d));
      && s'.rows == s.rows && s'.broken == s.broken
      && Lookup(s', shard, e) == CellAfterDelta(w, m, d, shard, e, Lookup(s, shard, e))
  {
    RunJoin(w, s, DropIntents(w, m, d), PutIntents(w, m, d));
    if d.oldKey.Some? { RunOne(w, s, DropIntents(w, m, d)[0]); }
    var s1 := Run(w, s, DropIntents(w, m, d));
    if d.newKey.Some? { RunOne(w, s1, PutIntents(w, m, d)[0]); }
  }

  lemma DeltaIntentsSnoc(w: World, m: Mutation, rest: seq<Delta>, d: Delta)
    ensures DeltaIntents(w, m, rest + [d])
         == if d.index.ring == [] then DeltaIntents(w, m, rest) else DeltaIntents(w, m, rest) + (DropIntents(w, m, d) + PutIntents(w, m, d))
  {
    assert (rest + [d])[..|rest|] == rest;
  }

  lemma {:induction false} NotFoundMeansOther(indexes: seq<IndexDef>, name: string)
    ensures Find(indexes, name).None? <==> forall i | 0 <= i < |indexes| :: indexes[i].name != name
    ensures Find(indexes, name).Some? ==> Find(indexes, name).value in indexes && Find(indexes, name).value.name == name
  {
    if indexes != [] { NotFoundMeansOther(indexes[..|indexes| - 1], name); }
  }

  /** The last index of a list adds exactly its own delta. */
  lemma CellAfterSnoc(w: World, m: Mutation, indexes: seq<IndexDef>, before: Option<Row>, shard: ShardId, e: EntryKey, was: Option<string>)
    requires NamesAreUnique(indexes) && indexes != [] && !(m.op == Update && before.None?)
    ensures var n := |indexes| - 1; var index := indexes[n];
      var d := Delta(index, OldKey(index, before), NewKey(index, m.op, before, m.values));
      var prior := CellAfter(w, m, indexes[..n], before, shard, e, was);
      CellAfter(w, m, indexes, before, shard, e, was) == if index.ring == [] || d.oldKey == d.newKey then prior else CellAfterDelta(w, m, d, shard, e, prior)
  {
    NotFoundMeansOther(indexes[..|indexes| - 1], e.index);
  }

  /** Running one more delta. */
  lemma OneMoreDelta(w: World, m: Mutation, rest: seq<Delta>, d: Delta, s: Store, shard: ShardId, e: EntryKey)
    requires d.oldKey != d.newKey
    ensures var s1 := Run(w, s, DeltaIntents(w, m, rest)); var s2 := Run(w, s, DeltaIntents(w, m, rest + [d]));
      && s2.rows == s1.rows && s2.broken == s1.broken
      && Lookup(s2, shard, e) == if d.index.ring == [] then Lookup(s1, shard, e) else CellAfterDelta(w, m, d, shard, e, Lookup(s1, shard, e))
  {
    DeltaIntentsSnoc(w, m, rest, d);
    if d.index.ring != [] {
      RunJoin(w, s, DeltaIntents(w, m, rest), DropIntents(w, m, d) + PutIntents(w, m, d));
      DeltaWrites(w, m, Run(w, s, DeltaIntents(w, m, rest)), d, shard, e);
    }
  }

  /** All deltas of a mutation. */
  lemma {:induction false} DeltasWrite(w: World, m: Mutation, indexes: seq<IndexDef>, before: Option<Row>, s: Store, shard: ShardId, e: EntryKey)
    requires NamesAreUnique(indexes)
    ensures var s' := Run(w, s, DeltaIntents(w, m, DeltasOf(indexes, m.op, before, m.values)));
      && s'.rows == s.rows && s'.broken == s.broken
      && Lookup(s', shard, e) == CellAfter(w, m, indexes, before, shard, e, Lookup(s, shard, e))
  {
    if indexes != [] && !(m.op == Update && before.None?) {
      var n := |indexes| - 1;
      var index := indexes[n];
      DeltasWrite(w, m, indexes[..n], before, s, shard, e);
      CellAfterSnoc(w, m, indexes, before, shard, e, Lookup(s, shard, e));
      var d := Delta(index, OldKey(index, before), NewKey(index, m.op, before, m.values));
      if d.oldKey != d.newKey { OneMoreDelta(w, m, DeltasOf(indexes[..n], m.op, before, m.values), d, s, shard, e); }
    }
  }

  // ---- the index is the image of the rows ----

  /** `shard` is where the index entry `e` belongs. */
  predicate IsPlace(w: World, shard: ShardId, e: EntryKey) {
    e.table in w.tables &&
    var f := Find(w.tables[e.table].indexes, e.index);
    f.Some? && f.value.ring != [] && shard == w.place(e.table, e.index, e.key, f.value.ring)
  }

  /** The row at `at` has this key in this index. */
  predicate HasKey(w: World, rows: Rows, at: Slot, shard: ShardId, e: EntryKey) {
    IsPlace(w, shard, e) && KeyIn(Find(w.tables[e.table].indexes, e.index).value, RowIn(rows, at)) == Some(e.key)
  }

  /** Where tenant `t`'s row of this entry lies. */
  function SlotFor(w: World, t: string, e: EntryKey): Slot { SlotOf(w, RowKey(t, e.table, e.partitionKey)) }

  predicate IsOwner(rows: Rows, at: Slot, t: string) { at in rows && rows[at].tenant == t }

  /** A row of tenant `t` has this key in this index. */
  predicate Owns(w: World, rows: Rows, t: string, shard: ShardId, e: EntryKey) {
    IsOwner(rows, SlotFor(w, t, e), t) && HasKey(w, rows, SlotFor(w, t, e), shard, e)
  }

  ghost predicate CellIsExact(w: World, s: Store, shard: ShardId, e: EntryKey) {
    forall t: string :: Lookup(s, shard, e) == Some(t) <==> Owns(w, s.rows, t, shard, e)
  }

  ghost predicate Exact(w: World, s: Store) { forall shard: ShardId, e: EntryKey :: CellIsExact(w, s, shard, e) }

  /** Rows of two tenants have the same entry. */
  ghost predicate Shared(w: World, rows: Rows) {
    exists shard: ShardId, e: EntryKey, t: string, u: string :: t != u && Owns(w, rows, t, shard, e) && Owns(w, rows, u, shard, e)
  }

  predicate WellFormed(w: World) {
    forall table | table in w.tables ::
      NamesAreUnique(w.tables[table].indexes) && forall index | index in w.tables[table].indexes :: index.columns != []
  }

  /** A stored row has its partition key and lies where its owner's requests are routed. */
  ghost predicate StoreOk(w: World, s: Store) {
    forall at | at in s.rows && at.table in w.tables ::
      IsKeyed(w.tables[at.table], RowIn(s.rows, at), at.partitionKey) && SlotOf(w, RowKey(s.rows[at].tenant, at.table, at.partitionKey)) == at
  }

  /** The gateway's prior row is fit for this mutation. */
  predicate RawOk(def: TableDef, raw: Option<Row>, stored: Option<Row>, m: Mutation) {
    def.indexes == [] || (if m.op == Insert then raw == None else Agrees(def, raw, stored))
  }

  // ---- one step ----

  function RowOf(w: World, s: Store, m: Mutation): Option<Row> { RowIn(s.rows, SlotOf(w, m.Key())) }

  function EffectOf(w: World, s: Store, m: Mutation): Outcome
    requires m.table in w.tables
  {
    Effect(RowOf(w, s, m), m, w.tables[m.table].pkColumn)
  }

  predicate Runs(w: World, s: Store, m: Mutation) { m.table in w.tables && SlotOf(w, m.Key()) !in s.broken && EffectOf(w, s, m).Ran? }

  function After(w: World, s: Store, m: Mutation, raw: Option<Row>): Store
    requires m.table in w.tables
  {
    Run(w, s, StepIntents(w, w.tables[m.table], raw, m))
  }

  /** What one mutation's intents leave. */
  lemma StepCell(w: World, s: Store, m: Mutation, raw: Option<Row>, shard: ShardId, e: EntryKey)
    requires WellFormed(w) && Runs(w, s, m)
    ensures var s' := After(w, s, m, raw); var outcome := EffectOf(w, s, m);
      && s'.rows == Stored(s.rows, SlotOf(w, m.Key()), m.tenant, outcome.row, outcome.affected) && s'.broken == s.broken
      && Lookup(s', shard, e) == CellAfter(w, m, w.tables[m.table].indexes, Before(raw, m), shard, e, Lookup(s, shard, e))
  {
    var def := w.tables[m.table];
    var base := [Addressed(w.home(m.Key()), Base(m))];
    var deltas := DeltaIntents(w, m, DeltasOf(def.indexes, m.op, Before(raw, m), m.values));
    RunJoin(w, s, base, deltas);
    RunOne(w, s, base[0]);
    DeltasWrite(w, m, def.indexes, Before(raw, m), Apply(w, s, base[0]), shard, e);
  }

  lemma OthersKeep(w: World, s: Store, m: Mutation, raw: Option<Row>, at: Slot, shard: ShardId, e: EntryKey)
    requires WellFormed(w) && Runs(w, s, m) && at != SlotOf(w, m.Key())
    ensures var s' := After(w, s, m, raw); at in s'.rows <==> at in s.rows
    ensures var s' := After(w, s, m, raw); at in s.rows ==> s'.rows[at] == s.rows[at]
    ensures HasKey(w, After(w, s, m, raw).rows, at, shard, e) == HasKey(w, s.rows, at, shard, e)
  {
    StepCell(w, s, m, raw, shard, e);
  }

  /** A cell of the mutated row. */
  predicate IsCellOf(w: World, m: Mutation, shard: ShardId, e: EntryKey) {
    e.table == m.table && e.partitionKey == m.partitionKey && IsPlace(w, shard, e)
  }

  /** The statement runs, and the gateway saw the row it runs on. */
  predicate Ready(w: World, s: Store, m: Mutation, raw: Option<Row>) {
    && Runs(w, s, m)
    && var def := w.tables[m.table];
       Covered(def, m) && IsKeyed(def, RowOf(w, s, m), m.partitionKey) && RawOk(def, raw, RowOf(w, s, m), m)
  }

  /** In such a cell the mutation's tenant is written exactly when the row gets the key, and
      the entry is taken out when the row loses it, whoever owned the row. */
  lemma OwnCell(w: World, s: Store, m: Mutation, raw: Option<Row>, shard: ShardId, e: EntryKey)
    requires WellFormed(w) && Ready(w, s, m, raw) && IsCellOf(w, m, shard, e)
    ensures var s' := After(w, s, m, raw); var at := SlotOf(w, m.Key());
      var had, has := HasKey(w, s.rows, at, shard, e), HasKey(w, s'.rows, at, shard, e);
      Lookup(s', shard, e) == if has == had then Lookup(s, shard, e) else if has then Some(m.tenant) else None
  {
    var def := w.tables[m.table];
    StepCell(w, s, m, raw, shard, e);
    NotFoundMeansOther(def.indexes, e.index);
    KeysFollow(def, raw, RowOf(w, s, m), m, Find(def.indexes, e.index).value);
  }

  /** Any other cell is left alone. */
  lemma OtherCell(w: World, s: Store, m: Mutation, raw: Option<Row>, shard: ShardId, e: EntryKey)
    requires WellFormed(w) && Ready(w, s, m, raw) && !IsCellOf(w, m, shard, e)
    ensures Lookup(After(w, s, m, raw), shard, e) == Lookup(s, shard, e)
  {
    StepCell(w, s, m, raw, shard, e);
    NotFoundMeansOther(w.tables[m.table].indexes, e.index);
  }

  lemma StepKeepsStoreOk(w: World, s: Store, m: Mutation, raw: Option<Row>)
    requires WellFormed(w) && Ready(w, s, m, raw) && StoreOk(w, s)
    ensures StoreOk(w, After(w, s, m, raw))
  {
    StepCell(w, s, m, raw, "", EntryKey("", "", [], ""));
    KeyedStep(w.tables[m.table], RowOf(w, s, m), m);
  }

  lemma KeyedStep(def: TableDef, stored: Option<Row>, m: Mutation)
    requires IsKeyed(def, stored, m.partitionKey) && Covered(def, m) && Effect(stored, m, def.pkColumn).Ran?
    ensures IsKeyed(def, Effect(stored, m, def.pkColumn).row, m.partitionKey)
  {
  }

  // ---- rows that change hands ----

  /** Whether the entry of this index still names an earlier owner of the row, one mutation
      on: the row is another tenant's or its entry named an earlier owner before, the
      mutation changes the row, and the row keeps its key. */
  predicate StillForeign(w: World, s: Store, m: Mutation, index: string, was: bool)
    requires m.table in w.tables && EffectOf(w, s, m).Ran?
  {
    var f := Find(w.tables[m.table].indexes, index);
    var before, outcome := RowOf(w, s, m), EffectOf(w, s, m);
    if !outcome.affected then was
    else
      f.Some? && before.Some? && outcome.row.Some? && KeyIn(f.value, before) == KeyIn(f.value, outcome.row)
      && (was || s.rows[SlotOf(w, m.Key())].tenant != m.tenant)
  }

  /** An entry names exactly the tenant whose row has it, or, where `foreign`, it names
      another tenant than the row's owner. */
  ghost predicate CellOk(w: World, s: Store, tenant: string, foreign: bool, shard: ShardId, e: EntryKey) {
    if foreign && Owns(w, s.rows, tenant, shard, e) then Lookup(s, shard, e).Some? && Lookup(s, shard, e) != Some(tenant)
    else CellIsExact(w, s, shard, e)
  }

  /** In a cell of the mutated row no other tenant has an entry, before or after. */
  lemma OnlyTheTenant(w: World, s: Store, m: Mutation, raw: Option<Row>, shard: ShardId, e: EntryKey, t: string)
    requires WellFormed(w) && Ready(w, s, m, raw) && StoreOk(w, s) && IsCellOf(w, m, shard, e)
    requires !Shared(w, s.rows) && !Shared(w, After(w, s, m, raw).rows) && t != m.tenant && EffectOf(w, s, m).affected
    requires HasKey(w, s.rows, SlotOf(w, m.Key()), shard, e) || HasKey(w, After(w, s, m, raw).rows, SlotOf(w, m.Key()), shard, e)
    ensures !Owns(w, After(w, s, m, raw).rows, t, shard, e)
  {
    var at, s' := SlotOf(w, m.Key()), After(w, s, m, raw);
    StepCell(w, s, m, raw, shard, e);
    if SlotFor(w, t, e) != at {
      OthersKeep(w, s, m, raw, SlotFor(w, t, e), shard, e);
      if HasKey(w, s'.rows, at, shard, e) {
        assert Owns(w, s'.rows, m.tenant, shard, e);
      } else {
        HolderOwns(w, s, m, shard, e);
        assert !(Owns(w, s.rows, s.rows[at].tenant, shard, e) && Owns(w, s.rows, t, shard, e));
      }
    }
  }

  /** A row with the key is its owner's, and its owner is routed there. */
  lemma HolderOwns(w: World, s: Store, m: Mutation, shard: ShardId, e: EntryKey)
    requires StoreOk(w, s) && IsCellOf(w, m, shard, e) && HasKey(w, s.rows, SlotOf(w, m.Key()), shard, e)
    ensures SlotOf(w, m.Key()) in s.rows && Owns(w, s.rows, s.rows[SlotOf(w, m.Key())].tenant, shard, e)
    ensures SlotFor(w, s.rows[SlotOf(w, m.Key())].tenant, e) == SlotOf(w, m.Key())
  {
  }

  lemma AffectedCell(w: World, s: Store, m: Mutation, raw: Option<Row>, was: bool, shard: ShardId, e: EntryKey)
    requires WellFormed(w) && Ready(w, s, m, raw) && StoreOk(w, s) && IsCellOf(w, m, shard, e)
    requires !Shared(w, s.rows) && !Shared(w, After(w, s, m, raw).rows) && EffectOf(w, s, m).affected
    requires CellOk(w, s, m.tenant, was, shard, e)
    ensures CellOk(w, After(w, s, m, raw), m.tenant, StillForeign(w, s, m, e.index, was), shard, e)
  {
    var at, s' := SlotOf(w, m.Key()), After(w, s, m, raw);
    var had, has := HasKey(w, s.rows, at, shard, e), HasKey(w, s'.rows, at, shard, e);
    StepCell(w, s, m, raw, shard, e);
    OwnCell(w, s, m, raw, shard, e);
    assert SlotFor(w, m.tenant, e) == at;
    forall t: string | t != m.tenant && (had || has) ensures !Owns(w, s'.rows, t, shard, e) { OnlyTheTenant(w, s, m, raw, shard, e, t); }
    if !had && !has {
      forall t: string ensures Owns(w, s'.rows, t, shard, e) == Owns(w, s.rows, t, shard, e) {
        if SlotFor(w, t, e) != at { OthersKeep(w, s, m, raw, SlotFor(w, t, e), shard, e); }
      }
    } else if had && has {
      HolderOwns(w, s, m, shard, e);
    }
  }

  /** A statement that counts no row as changed changes none. */
  lemma UnaffectedRows(w: World, s: Store, m: Mutation, raw: Option<Row>)
    requires WellFormed(w) && Runs(w, s, m) && !EffectOf(w, s, m).affected
    ensures After(w, s, m, raw).rows == s.rows
  {
    StepCell(w, s, m, raw, "", EntryKey("", "", [], ""));
    UnaffectedIsSame(RowOf(w, s, m), m, w.tables[m.table].pkColumn);
  }

  lemma UnaffectedCell(w: World, s: Store, m: Mutation, raw: Option<Row>, was: bool, shard: ShardId, e: EntryKey)
    requires WellFormed(w) && Ready(w, s, m, raw) && CellOk(w, s, m.tenant, was, shard, e)
    requires !IsCellOf(w, m, shard, e) || !EffectOf(w, s, m).affected
    ensures CellOk(w, After(w, s, m, raw), m.tenant, was, shard, e)
  {
    var at, s' := SlotOf(w, m.Key()), After(w, s, m, raw);
    StepCell(w, s, m, raw, shard, e);
    if !EffectOf(w, s, m).affected { UnaffectedRows(w, s, m, raw); }
    if IsCellOf(w, m, shard, e) { OwnCell(w, s, m, raw, shard, e); } else { OtherCell(w, s, m, raw, shard, e); }
    forall t: string ensures Owns(w, s'.rows, t, shard, e) == Owns(w, s.rows, t, shard, e) {
      if SlotFor(w, t, e) != at { OthersKeep(w, s, m, raw, SlotFor(w, t, e), shard, e); }
    }
  }

  /** One mutation keeps the index exact if it leaves no entry shared between tenants and
      takes over no row without changing all its keys. */
  lemma StepIsExact(w: World, s: Store, m: Mutation, raw: Option<Row>)
    requires WellFormed(w) && Ready(w, s, m, raw) && StoreOk(w, s) && Exact(w, s) && !Shared(w, After(w, s, m, raw).rows)
    requires forall index: string :: !StillForeign(w, s, m, index, false)
    ensures Exact(w, After(w, s, m, raw))
  {
    ExactIsNotShared(w, s);
    forall shard: ShardId, e: EntryKey ensures CellIsExact(w, After(w, s, m, raw), shard, e) {
      assert CellIsExact(w, s, shard, e);
      if IsCellOf(w, m, shard, e) && EffectOf(w, s, m).affected {
        AffectedCell(w, s, m, raw, false, shard, e);
        assert !StillForeign(w, s, m, e.index, false);
      } else {
        UnaffectedCell(w, s, m, raw, false, shard, e);
      }
    }
  }

  // ---- entries of two tenants ----

  /** A tenant's row, elsewhere than `tenant`'s own, has an entry key, and the entry is not
      this tenant's. */
  predicate Lost(w: World, s: Store, tenant: string, t: string, shard: ShardId, e: EntryKey) {
    Owns(w, s.rows, t, shard, e) && Lookup(s, shard, e) != Some(t) && SlotFor(w, t, e) != SlotFor(w, tenant, e)
  }

  lemma LostStaysLost(w: World, s: Store, m: Mutation, raw: Option<Row>, t: string, shard: ShardId, e: EntryKey)
    requires WellFormed(w) && Ready(w, s, m, raw) && Lost(w, s, m.tenant, t, shard, e)
    ensures Lost(w, After(w, s, m, raw), m.tenant, t, shard, e)
  {
    OthersKeep(w, s, m, raw, SlotFor(w, t, e), shard, e);
    if IsCellOf(w, m, shard, e) { OwnCell(w, s, m, raw, shard, e); } else { OtherCell(w, s, m, raw, shard, e); }
  }

  /** Of two rows that come to share an entry, one is the mutated row. */
  lemma SharerIsMutated(w: World, s: Store, m: Mutation, raw: Option<Row>, t: string, u: string, shard: ShardId, e: EntryKey)
    requires WellFormed(w) && Ready(w, s, m, raw) && !Shared(w, s.rows)
    requires t != u && Owns(w, After(w, s, m, raw).rows, t, shard, e) && Owns(w, After(w, s, m, raw).rows, u, shard, e)
    ensures t == m.tenant || u == m.tenant
  {
    StepCell(w, s, m, raw, shard, e);
    if !EffectOf(w, s, m).affected { UnaffectedRows(w, s, m, raw); }
    if SlotFor(w, t, e) != SlotOf(w, m.Key()) { OthersKeep(w, s, m, raw, SlotFor(w, t, e), shard, e); }
    if SlotFor(w, u, e) != SlotOf(w, m.Key()) { OthersKeep(w, s, m, raw, SlotFor(w, u, e), shard, e); }
    assert !(Owns(w, s.rows, t, shard, e) && Owns(w, s.rows, u, shard, e));
  }

  /** If a mutation does leave an entry shared, the other tenant's row loses it. */
  lemma SharingLoses(w: World, s: Store, m: Mutation, raw: Option<Row>, t: string, was: bool, shard: ShardId, e: EntryKey)
    requires WellFormed(w) && Ready(w, s, m, raw) && StoreOk(w, s) && !Shared(w, s.rows) && CellOk(w, s, m.tenant, was, shard, e)
    requires t != m.tenant && Owns(w, After(w, s, m, raw).rows, m.tenant, shard, e) && Owns(w, After(w, s, m, raw).rows, t, shard, e)
    ensures Lost(w, After(w, s, m, raw), m.tenant, t, shard, e)
  {
    var at, s' := SlotOf(w, m.Key()), After(w, s, m, raw);
    StepCell(w, s, m, raw, shard, e);
    assert SlotFor(w, t, e) != SlotFor(w, m.tenant, e);
    if SlotFor(w, m.tenant, e) != at { OthersKeep(w, s, m, raw, SlotFor(w, m.tenant, e), shard, e); }
    if SlotFor(w, t, e) != at { OthersKeep(w, s, m, raw, SlotFor(w, t, e), shard, e); }
    SharerCell(w, s, m, raw, t, shard, e);
    assert !(Owns(w, s.rows, t, shard, e) && Owns(w, s.rows, m.tenant, shard, e));
    OwnCell(w, s, m, raw, shard, e);
  }

  /** The mutated row is new to the entry. */
  lemma SharerCell(w: World, s: Store, m: Mutation, raw: Option<Row>, t: string, shard: ShardId, e: EntryKey)
    requires WellFormed(w) && Ready(w, s, m, raw) && StoreOk(w, s) && !Shared(w, s.rows)
    requires t != m.tenant && Owns(w, After(w, s, m, raw).rows, m.tenant, shard, e) && Owns(w, After(w, s, m, raw).rows, t, shard, e)
    ensures IsCellOf(w, m, shard, e) && Owns(w, s.rows, t, shard, e) && !HasKey(w, s.rows, SlotOf(w, m.Key()), shard, e)
  {
    var at := SlotOf(w, m.Key());
    StepCell(w, s, m, raw, shard, e);
    if SlotFor(w, m.tenant, e) != at { OthersKeep(w, s, m, raw, SlotFor(w, m.tenant, e), shard, e); }
    if SlotFor(w, t, e) != at { OthersKeep(w, s, m, raw, SlotFor(w, t, e), shard, e); }
    assert !(Owns(w, s.rows, t, shard, e) && Owns(w, s.rows, m.tenant, shard, e));
    if HasKey(w, s.rows, at, shard, e) && SlotFor(w, m.tenant, e) == at { assert Owns(w, s.rows, s.rows[at].tenant, shard, e); }
  }

  // ---- the whole batch ----

  /** The batch is one tenant's, and every mutation meets what the derivation needs. */
  ghost predicate BatchOk(w: World, ms: seq<Mutation>, tenant: string) {
    WellFormed(w) && Routable(w, ms) && forall i | 0 <= i < |ms| :: ms[i].tenant == tenant && Covered(w.tables[ms[i].table], ms[i])
  }

  /** The rows and the index after the batch, applied in batch order. */
  function StoreAfter(w: World, s: Store, ms: seq<Mutation>): Store
    requires Routable(w, ms)
  {
    Run(w, s, Plan(w, s.rows, ms).intents)
  }

  /** The prior row the gateway uses for the next mutation. */
  function RawNext(w: World, s: Store, ms: seq<Mutation>, m: Mutation): Option<Row>
    requires Routable(w, ms) && m.table in w.tables
  {
    Raw(w, w.tables[m.table], s.rows, Plan(w, s.rows, ms).sim, m)
  }

  lemma StoreAfterStep(w: World, s: Store, ms: seq<Mutation>)
    requires Routable(w, ms) && ms != []
    ensures var n := |ms| - 1; StoreAfter(w, s, ms) == After(w, StoreAfter(w, s, ms[..n]), ms[n], RawNext(w, s, ms[..n], ms[n]))
  {
    var n := |ms| - 1;
    var m := ms[n];
    RunJoin(w, s, Plan(w, s.rows, ms[..n]).intents, StepIntents(w, w.tables[m.table], RawNext(w, s, ms[..n], m), m));
  }

  /** The simulation agrees with the rows the tenant is routed to: where the batch has been,
      with what the simulation holds; elsewhere, with the database. */
  ghost predicate SimOk(w: World, tenant: string, start: Store, sim: Simulated, s: Store) {
    forall k: RowKey | k.table in w.tables && k.tenant == tenant :: SimOkAt(w, start, sim, s, k)
  }

  predicate SimOkAt(w: World, start: Store, sim: Simulated, s: Store, k: RowKey)
    requires k.table in w.tables
  {
    var def := w.tables[k.table];
    def.Indexed() != {} ==>
      if k in sim then Agrees(def, sim[k], RowIn(s.rows, SlotOf(w, k))) else RowIn(s.rows, SlotOf(w, k)) == RowIn(start.rows, SlotOf(w, k))
  }

  /** A row once broken stays broken. */
  lemma {:induction false} BrokenGrows(w: World, s: Store, intents: seq<Addressed>)
    ensures s.broken <= Run(w, s, intents).broken
  {
    if intents != [] { BrokenGrows(w, s, intents[..|intents| - 1]); }
  }

  lemma NotBroken(w: World, s: Store, m: Mutation, raw: Option<Row>)
    requires m.table in w.tables && After(w, s, m, raw).broken == {}
    ensures s.broken == {} && Runs(w, s, m)
  {
    var base := [Addressed(w.home(m.Key()), Base(m))];
    var deltas := DeltaIntents(w, m, DeltasOf(w.tables[m.table].indexes, m.op, Before(raw, m), m.values));
    RunJoin(w, s, base, deltas);
    RunOne(w, s, base[0]);
    BrokenGrows(w, Apply(w, s, base[0]), deltas);
  }

  lemma RawIsOk(w: World, start: Store, sim: Simulated, s: Store, m: Mutation)
    requires WellFormed(w) && m.table in w.tables && Covered(w.tables[m.table], m) && SimOkAt(w, start, sim, s, m.Key())
    ensures RawOk(w.tables[m.table], Raw(w, w.tables[m.table], start.rows, sim, m), RowOf(w, s, m), m)
  {
    var def := w.tables[m.table];
    if def.indexes != [] {
      var index := def.indexes[0];
      assert index in def.indexes && index.columns[0] in index.columns;
      assert index.columns[0] in def.Indexed();
    }
  }

  lemma SimStep(w: World, start: Store, sim: Simulated, s: Store, m: Mutation, k: RowKey)
    requires WellFormed(w) && SimOk(w, m.tenant, start, sim, s) && k.table in w.tables && k.tenant == m.tenant
    requires var raw := if m.table in w.tables then Raw(w, w.tables[m.table], start.rows, sim, m) else None; Ready(w, s, m, raw)
    ensures var def := w.tables[m.table]; var raw := Raw(w, def, start.rows, sim, m);
      var sim' := if def.Indexed() == {} then sim else sim[m.Key() := NextRow(def, raw, m)];
      SimOkAt(w, start, sim', After(w, s, m, raw), k)
  {
    var def := w.tables[m.table];
    var raw := Raw(w, def, start.rows, sim, m);
    StepCell(w, s, m, raw, "", EntryKey("", "", [], ""));
    assert SimOkAt(w, start, sim, s, k);
    if k == m.Key() {
      if def.Indexed() != {} {
        assert def.indexes != [];
        SimulationFollows(def, raw, RowOf(w, s, m), m);
      }
    } else {
      OthersKeep(w, s, m, raw, SlotOf(w, k), "", EntryKey("", "", [], ""));
    }
  }

  /** Through the whole batch the simulation follows the rows. */
  lemma {:induction false} SimFollows(w: World, s: Store, ms: seq<Mutation>, tenant: string)
    requires BatchOk(w, ms, tenant) && StoreOk(w, s) && StoreAfter(w, s, ms).broken == {}
    ensures SimOk(w, tenant, s, Plan(w, s.rows, ms).sim, StoreAfter(w, s, ms)) && StoreOk(w, StoreAfter(w, s, ms))
    ensures ms != [] ==> var n := |ms| - 1;
      StoreAfter(w, s, ms[..n]).broken == {} && Ready(w, StoreAfter(w, s, ms[..n]), ms[n], RawNext(w, s, ms[..n], ms[n]))
  {
    if ms != [] {
      var n := |ms| - 1;
      var m := ms[n];
      var prior, raw := StoreAfter(w, s, ms[..n]), RawNext(w, s, ms[..n], m);
      StoreAfterStep(w, s, ms);
      NotBroken(w, prior, m, raw);
      SimFollows(w, s, ms[..n], tenant);
      assert SimOkAt(w, s, Plan(w, s.rows, ms[..n]).sim, prior, m.Key());
      RawIsOk(w, s, Plan(w, s.rows, ms[..n]).sim, prior, m);
      StepKeepsStoreOk(w, prior, m, raw);
      forall k: RowKey | k.table in w.tables && k.tenant == tenant ensures SimOkAt(w, s, Plan(w, s.rows, ms).sim, StoreAfter(w, s, ms), k) {
        SimStep(w, s, Plan(w, s.rows, ms[..n]).sim, prior, m, k);
      }
    }
  }

  /** Nowhere along the batch do rows of two tenants share an index entry. */
  ghost predicate NeverShared(w: World, s: Store, ms: seq<Mutation>)
    requires Routable(w, ms)
  {
    !Shared(w, StoreAfter(w, s, ms).rows) && (ms != [] ==> NeverShared(w, s, ms[..|ms| - 1]))
  }

  /** After the batch, the row at `k` has in this index still the key under which it was
      another tenant's: the batch changed the row, and its mutations kept that key. */
  predicate KeepsForeignKey(w: World, s: Store, ms: seq<Mutation>, k: RowKey, index: string)
    requires Routable(w, ms)
  {
    if ms == [] then false
    else
      var n := |ms| - 1;
      var m, prior, was := ms[n], StoreAfter(w, s, ms[..n]), KeepsForeignKey(w, s, ms[..n], k, index);
      if m.Key() != k || !EffectOf(w, prior, m).Ran? then was else StillForeign(w, prior, m, index, was)
  }

  /** Some index entry was left to the earlier owner of a row. */
  ghost predicate LeavesForeignKey(w: World, s: Store, ms: seq<Mutation>, tenant: string)
    requires Routable(w, ms)
  {
    exists e: EntryKey :: IsPlaced(w, e) && KeepsForeignKey(w, s, ms, RowKey(tenant, e.table, e.partitionKey), e.index)
  }

  predicate IsPlaced(w: World, e: EntryKey) {
    e.table in w.tables && var f := Find(w.tables[e.table].indexes, e.index); f.Some? && f.value.ring != []
  }

  lemma ExactIsNotShared(w: World, s: Store)
    requires Exact(w, s)
    ensures !Shared(w, s.rows)
  {
    forall shard: ShardId, e: EntryKey, t: string, u: string | t != u ensures !(Owns(w, s.rows, t, shard, e) && Owns(w, s.rows, u, shard, e)) {
      assert CellIsExact(w, s, shard, e);
      assert Lookup(s, shard, e) == Some(t) <==> Owns(w, s.rows, t, shard, e);
      assert Lookup(s, shard, e) == Some(u) <==> Owns(w, s.rows, u, shard, e);
    }
  }

  /** Along a batch that shares no entry, every cell is exact except where a row changed
      hands and kept its key. */
  lemma {:induction false} CellsFollow(w: World, s: Store, ms: seq<Mutation>, tenant: string, shard: ShardId, e: EntryKey)
    requires BatchOk(w, ms, tenant) && StoreOk(w, s) && Exact(w, s) && StoreAfter(w, s, ms).broken == {} && NeverShared(w, s, ms)
    ensures CellOk(w, StoreAfter(w, s, ms), tenant, KeepsForeignKey(w, s, ms, RowKey(tenant, e.table, e.partitionKey), e.index), shard, e)
  {
    if ms == [] {
      assert CellIsExact(w, s, shard, e);
    } else {
      var n := |ms| - 1;
      var k := RowKey(tenant, e.table, e.partitionKey);
      SimFollows(w, s, ms, tenant);
      CellsFollow(w, s, ms[..n], tenant, shard, e);
      StoreAfterStep(w, s, ms);
      var m, prior, raw := ms[n], StoreAfter(w, s, ms[..n]), RawNext(w, s, ms[..n], ms[n]);
      SimFollows(w, s, ms[..n], tenant);
      var was := KeepsForeignKey(w, s, ms[..n], k, e.index);
      if IsCellOf(w, m, shard, e) && EffectOf(w, prior, m).affected {
        AffectedCell(w, prior, m, raw, was, shard, e);
      } else {
        UnaffectedCell(w, prior, m, raw, was, shard, e);
        UnplacedCell(w, StoreAfter(w, s, ms), tenant, was, KeepsForeignKey(w, s, ms, k, e.index), shard, e);
      }
    }
  }

  /** A cell that is no entry's place does not depend on what changed hands. */
  lemma UnplacedCell(w: World, s: Store, tenant: string, was: bool, is_: bool, shard: ShardId, e: EntryKey)
    requires CellOk(w, s, tenant, was, shard, e) && (was == is_ || !IsPlace(w, shard, e))
    ensures CellOk(w, s, tenant, is_, shard, e)
  {
  }

  /** A row whose key was kept when it changed hands is there, and is the batch's tenant's. */
  lemma {:induction false} ForeignKeyIsOwned(w: World, s: Store, ms: seq<Mutation>, tenant: string, k: RowKey, index: string)
    requires BatchOk(w, ms, tenant) && StoreOk(w, s) && StoreAfter(w, s, ms).broken == {}
    requires k.tenant == tenant && KeepsForeignKey(w, s, ms, k, index)
    ensures IsOwner(StoreAfter(w, s, ms).rows, SlotOf(w, k), tenant)
  {
    var n := |ms| - 1;
    var m, prior, raw := ms[n], StoreAfter(w, s, ms[..n]), RawNext(w, s, ms[..n], ms[n]);
    SimFollows(w, s, ms, tenant);
    StoreAfterStep(w, s, ms);
    if m.Key() != k {
      ForeignKeyIsOwned(w, s, ms[..n], tenant, k, index);
      OthersKeep(w, prior, m, raw, SlotOf(w, k), "", EntryKey("", "", [], ""));
    } else if !EffectOf(w, prior, m).affected {
      ForeignKeyIsOwned(w, s, ms[..n], tenant, k, index);
      UnaffectedRows(w, prior, m, raw);
    } else {
      StepCell(w, prior, m, raw, "", EntryKey("", "", [], ""));
    }
  }

  /** If rows ever share an entry, the row that was there first has lost it by the end. */
  lemma {:induction false} LostIfEverShared(w: World, s: Store, ms: seq<Mutation>, tenant: string) returns (t: string, shard: ShardId, e: EntryKey)
    requires BatchOk(w, ms, tenant) && StoreOk(w, s) && Exact(w, s) && StoreAfter(w, s, ms).broken == {}
    requires ms != [] && !NeverShared(w, s, ms)
    ensures Lost(w, StoreAfter(w, s, ms), tenant, t, shard, e)
    decreases |ms|
  {
    var n := |ms| - 1;
    SimFollows(w, s, ms, tenant);
    StoreAfterStep(w, s, ms);
    var prior, raw := StoreAfter(w, s, ms[..n]), RawNext(w, s, ms[..n], ms[n]);
    if NeverShared(w, s, ms[..n]) {
      t, shard, e := LostAtLast(w, s, ms, tenant);
    } else {
      ExactIsNotShared(w, s);
      t, shard, e := LostIfEverShared(w, s, ms[..n], tenant);
      LostStaysLost(w, prior, ms[n], raw, t, shard, e);
    }
  }

  lemma LostAtLast(w: World, s: Store, ms: seq<Mutation>, tenant: string) returns (t: string, shard: ShardId, e: EntryKey)
    requires BatchOk(w, ms, tenant) && StoreOk(w, s) && Exact(w, s) && StoreAfter(w, s, ms).broken == {}
    requires ms != [] && Shared(w, StoreAfter(w, s, ms).rows) && NeverShared(w, s, ms[..|ms| - 1])
    ensures Lost(w, StoreAfter(w, s, ms), tenant, t, shard, e)
  {
    var n := |ms| - 1;
    SimFollows(w, s, ms, tenant);
    SimFollows(w, s, ms[..n], tenant);
    StoreAfterStep(w, s, ms);
    var prior, raw := StoreAfter(w, s, ms[..n]), RawNext(w, s, ms[..n], ms[n]);
    var rows, u := StoreAfter(w, s, ms).rows, "";
    shard, e, t, u :| t != u && Owns(w, rows, t, shard, e) && Owns(w, rows, u, shard, e);
    SharerIsMutated(w, prior, ms[n], raw, t, u, shard, e);
    if t == tenant { t, u := u, t; }
    CellsFollow(w, s, ms[..n], tenant, shard, e);
    SharingLoses(w, prior, ms[n], raw, t, KeepsForeignKey(w, s, ms[..n], RowKey(tenant, e.table, e.partitionKey), e.index), shard, e);
  }

  /** A key kept by a row that changed hands leaves an inexact entry. */
  lemma ForeignKeyIsInexact(w: World, s: Store, ms: seq<Mutation>, tenant: string)
    requires BatchOk(w, ms, tenant) && StoreOk(w, s) && Exact(w, s) && StoreAfter(w, s, ms).broken == {} && NeverShared(w, s, ms)
    requires LeavesForeignKey(w, s, ms, tenant)
    ensures !Exact(w, StoreAfter(w, s, ms))
  {
    var p: EntryKey :| IsPlaced(w, p) && KeepsForeignKey(w, s, ms, RowKey(tenant, p.table, p.partitionKey), p.index);
    var k, rows := RowKey(tenant, p.table, p.partitionKey), StoreAfter(w, s, ms).rows;
    ForeignKeyIsOwned(w, s, ms, tenant, k, p.index);
    var f := Find(w.tables[p.table].indexes, p.index).value;
    var e := p.(key := KeyIn(f, RowIn(rows, SlotOf(w, k))).value);
    var shard := w.place(e.table, e.index, e.key, f.ring);
    CellsFollow(w, s, ms, tenant, shard, e);
    assert Owns(w, rows, tenant, shard, e);
    assert !CellIsExact(w, StoreAfter(w, s, ms), shard, e);
  }

  /** The main result. If the index is the image of the rows before a batch, then after
      the batch it is the image of the final rows exactly when no mutation of the batch
      gives a row an entry key that another tenant's row has elsewhere (the entry's primary
      key does not name the tenant), and no row the batch takes over from another tenant
      ends with an index key it kept throughout. */
  lemma BatchKeepsIndexIff(w: World, s: Store, ms: seq<Mutation>, tenant: string)
    requires BatchOk(w, ms, tenant) && StoreOk(w, s) && Exact(w, s) && StoreAfter(w, s, ms).broken == {}
    ensures Exact(w, StoreAfter(w, s, ms)) <==> NeverShared(w, s, ms) && !LeavesForeignKey(w, s, ms, tenant)
  {
    ExactIsNotShared(w, s);
    if !NeverShared(w, s, ms) {
      var t, shard, e := LostIfEverShared(w, s, ms, tenant);
      assert !CellIsExact(w, StoreAfter(w, s, ms), shard, e);
    } else if LeavesForeignKey(w, s, ms, tenant) {
      ForeignKeyIsInexact(w, s, ms, tenant);
    } else {
      forall shard: ShardId, e: EntryKey ensures CellIsExact(w, StoreAfter(w, s, ms), shard, e) {
        CellsFollow(w, s, ms, tenant, shard, e);
        assert IsPlaced(w, e) ==> !KeepsForeignKey(w, s, ms, RowKey(tenant, e.table, e.partitionKey), e.index);
      }
    }
  }

  // ---- tenants that do not share partition keys ----

  predicate SameAt(x: Rows, y: Rows, at: Slot) { (at in x <==> at in y) && (at in x ==> x[at] == y[at]) }

  lemma {:induction false} UntouchedRow(w: World, s: Store, ms: seq<Mutation>, tenant: string, at: Slot)
    requires BatchOk(w, ms, tenant) && StoreOk(w, s) && StoreAfter(w, s, ms).broken == {} && forall i | 0 <= i < |ms| :: SlotOf(w, ms[i].Key()) != at
    ensures SameAt(StoreAfter(w, s, ms).rows, s.rows, at)
  {
    if ms != [] {
      var n := |ms| - 1;
      SimFollows(w, s, ms, tenant);
      UntouchedRow(w, s, ms[..n], tenant, at);
      StoreAfterStep(w, s, ms);
      OthersKeep(w, StoreAfter(w, s, ms[..n]), ms[n], RawNext(w, s, ms[..n], ms[n]), at, "", EntryKey("", "", [], ""));
    }
  }

  /** No other tenant has a row under a partition key the batch touches. */
  ghost predicate KeysAreOwn(s: Store, ms: seq<Mutation>, tenant: string) {
    forall i, at | 0 <= i < |ms| && at in s.rows && at.table == ms[i].table && at.partitionKey == ms[i].partitionKey :: s.rows[at].tenant == tenant
  }

  /** Then the rows it touches stay its own. */
  lemma {:induction false} OwnRowsStay(w: World, s: Store, ms: seq<Mutation>, tenant: string, at: Slot)
    requires BatchOk(w, ms, tenant) && StoreOk(w, s) && StoreAfter(w, s, ms).broken == {}
    requires at in s.rows ==> s.rows[at].tenant == tenant
    ensures at in StoreAfter(w, s, ms).rows ==> StoreAfter(w, s, ms).rows[at].tenant == tenant
  {
    if ms != [] {
      var n := |ms| - 1;
      SimFollows(w, s, ms, tenant);
      OwnRowsStay(w, s, ms[..n], tenant, at);
      StoreAfterStep(w, s, ms);
      StepCell(w, StoreAfter(w, s, ms[..n]), ms[n], RawNext(w, s, ms[..n], ms[n]), "", EntryKey("", "", [], ""));
    }
  }

  lemma OwnKeysAreNotShared(w: World, s: Store, ms: seq<Mutation>, tenant: string)
    requires BatchOk(w, ms, tenant) && StoreOk(w, s) && Exact(w, s) && StoreAfter(w, s, ms).broken == {} && KeysAreOwn(s, ms, tenant)
    ensures !Shared(w, StoreAfter(w, s, ms).rows)
  {
    var rows := StoreAfter(w, s, ms).rows;
    ExactIsNotShared(w, s);
    forall shard: ShardId, e: EntryKey, t: string, u: string | t != u ensures !(Owns(w, rows, t, shard, e) && Owns(w, rows, u, shard, e)) {
      var at, au := SlotFor(w, t, e), SlotFor(w, u, e);
      if i :| 0 <= i < |ms| && ms[i].table == e.table && ms[i].partitionKey == e.partitionKey {
        OwnRowsStay(w, s, ms, tenant, at);
        OwnRowsStay(w, s, ms, tenant, au);
      } else {
        UntouchedRow(w, s, ms, tenant, at);
        UntouchedRow(w, s, ms, tenant, au);
        assert !(Owns(w, s.rows, t, shard, e) && Owns(w, s.rows, u, shard, e));
      }
    }
  }

  lemma {:induction false} OwnKeysNeverShare(w: World, s: Store, ms: seq<Mutation>, tenant: string)
    requires BatchOk(w, ms, tenant) && StoreOk(w, s) && Exact(w, s) && StoreAfter(w, s, ms).broken == {} && KeysAreOwn(s, ms, tenant)
    ensures NeverShared(w, s, ms)
  {
    OwnKeysAreNotShared(w, s, ms, tenant);
    if ms != [] {
      SimFollows(w, s, ms, tenant);
      OwnKeysNeverShare(w, s, ms[..|ms| - 1], tenant);
    }
  }

  lemma {:induction false} OwnKeysAreNotForeign(w: World, s: Store, ms: seq<Mutation>, tenant: string, k: RowKey, index: string)
    requires BatchOk(w, ms, tenant) && StoreOk(w, s) && StoreAfter(w, s, ms).broken == {} && KeysAreOwn(s, ms, tenant) && k.tenant == tenant
    ensures !KeepsForeignKey(w, s, ms, k, index)
  {
    if ms != [] {
      var n := |ms| - 1;
      SimFollows(w, s, ms, tenant);
      OwnKeysAreNotForeign(w, s, ms[..n], tenant, k, index);
      OwnRowsStay(w, s, ms[..n], tenant, SlotOf(w, ms[n].Key()));
    }
  }

  /** So the index stays exact whenever partition keys are not shared between tenants. */
  lemma BatchKeepsIndex(w: World, s: Store, ms: seq<Mutation>, tenant: string)
    requires BatchOk(w, ms, tenant) && StoreOk(w, s) && Exact(w, s) && StoreAfter(w, s, ms).broken == {} && KeysAreOwn(s, ms, tenant)
    ensures Exact(w, StoreAfter(w, s, ms))
  {
    OwnKeysNeverShare(w, s, ms, tenant);
    forall e: EntryKey ensures !KeepsForeignKey(w, s, ms, RowKey(tenant, e.table, e.partitionKey), e.index) {
      OwnKeysAreNotForeign(w, s, ms, tenant, RowKey(tenant, e.table, e.partitionKey), e.index);
    }
    BatchKeepsIndexIff(w, s, ms, tenant);
  }

  // ---- tenants that do ----

  lemma OneMutation(w: World, s: Store, m: Mutation)
    requires BatchOk(w, [m], m.tenant) && StoreOk(w, s) && StoreAfter(w, s, [m]).broken == {}
    ensures Ready(w, s, m, RawNext(w, s, [], m)) && StoreAfter(w, s, [m]) == After(w, s, m, RawNext(w, s, [], m))
    ensures [m][..0] == [] && StoreAfter(w, s, []) == s
  {
    assert [m][..0] == [];
    SimFollows(w, s, [m], m.tenant);
    StoreAfterStep(w, s, [m]);
  }

  /** Two tenants insert the same partition key with the same indexed values. On two shards
      both inserts run, and the second takes the first one's entry. */
  lemma SecondTenantTakesEntry(w: World, s: Store, m: Mutation, u: string, shard: ShardId, e: EntryKey)
    requires BatchOk(w, [m], m.tenant) && StoreOk(w, s) && Exact(w, s) && StoreAfter(w, s, [m]).broken == {}
    requires u != m.tenant && Owns(w, s.rows, u, shard, e) && m.op == Insert && m.table == e.table && m.partitionKey == e.partitionKey
    requires KeyOf(Find(w.tables[e.table].indexes, e.index).value.columns, m.values) == e.key
    ensures !Exact(w, StoreAfter(w, s, [m])) && Lookup(StoreAfter(w, s, [m]), shard, e) == Some(m.tenant)
    ensures Owns(w, StoreAfter(w, s, [m]).rows, u, shard, e)
  {
    OneMutation(w, s, m);
    var raw := RawNext(w, s, [], m);
    var s' := After(w, s, m, raw);
    StepCell(w, s, m, raw, shard, e);
    OthersKeep(w, s, m, raw, SlotFor(w, u, e), shard, e);
    NotFoundMeansOther(w.tables[e.table].indexes, e.index);
    KeysFollow(w.tables[m.table], raw, RowOf(w, s, m), m, Find(w.tables[e.table].indexes, e.index).value);
    assert Over(None, m.values) == m.values;
    assert !(Lookup(s', shard, e) == Some(u) <==> Owns(w, s'.rows, u, shard, e));
    assert !CellIsExact(w, s', shard, e);
  }

  /** On one shard the second insert fails the transaction. */
  lemma SecondInsertIsRefused(w: World, s: Store, m: Mutation)
    requires BatchOk(w, [m], m.tenant) && m.op == Insert && SlotOf(w, m.Key()) in s.rows
    ensures StoreAfter(w, s, [m]).broken != {}
  {
    assert [m][..0] == [];
    StoreAfterStep(w, s, [m]);
    if StoreAfter(w, s, [m]).broken == {} { NotBroken(w, s, m, RawNext(w, s, [], m)); }
  }

  /** And an upsert that changes another tenant's row there leaves each entry whose key it
      keeps to that tenant. */
  lemma TakenRowKeepsEntry(w: World, s: Store, m: Mutation, u: string, shard: ShardId, e: EntryKey)
    requires BatchOk(w, [m], m.tenant) && StoreOk(w, s) && Exact(w, s) && StoreAfter(w, s, [m]).broken == {}
    requires u != m.tenant && Owns(w, s.rows, u, shard, e) && SlotFor(w, u, e) == SlotOf(w, m.Key())
    requires m.op == Upsert && Runs(w, s, m) && EffectOf(w, s, m).affected
    requires KeyIn(Find(w.tables[e.table].indexes, e.index).value, EffectOf(w, s, m).row) == Some(e.key)
    ensures !Exact(w, StoreAfter(w, s, [m])) && Lookup(StoreAfter(w, s, [m]), shard, e) == Some(u)
    ensures Owns(w, StoreAfter(w, s, [m]).rows, m.tenant, shard, e)
  {
    OneMutation(w, s, m);
    var raw := RawNext(w, s, [], m);
    StepCell(w, s, m, raw, shard, e);
    OwnCell(w, s, m, raw, shard, e);
    assert CellIsExact(w, s, shard, e);
    assert !CellIsExact(w, After(w, s, m, raw), shard, e);
  }

  // ---- conditions the gateway misjudges ----

  /** The gateway's verdict on an update or delete: every condition holds of the columns it
      has read, and it has read the indexed columns only. */
  predicate SeesMatch(w: World, s: Store, m: Mutation)
    requires m.table in w.tables
  {
    JsMatches(Project(RowOf(w, s, m), w.tables[m.table].Indexed()), m.where_)
  }

  /** The statement's own verdict. */
  predicate Hits(w: World, s: Store, m: Mutation)
    requires m.table in w.tables
  {
    RowOf(w, s, m).Some? && SqlMatches(RowOf(w, s, m).value, w.tables[m.table].pkColumn, m.where_)
  }

  /** The key of this index goes away or becomes another if the mutation is carried out. */
  predicate ChangesKey(w: World, s: Store, m: Mutation, index: string)
    requires m.table in w.tables && RowOf(w, s, m).Some?
  {
    var f := Find(w.tables[m.table].indexes, index);
    f.Some? && f.value.ring != []
    && (m.op == Delete || KeyOf(f.value.columns, RowOf(w, s, m).value) != KeyOf(f.value.columns, Over(RowOf(w, s, m), m.values)))
  }

  ghost predicate ChangesSomeKey(w: World, s: Store, m: Mutation)
    requires m.table in w.tables
  {
    RowOf(w, s, m).Some? && exists index: string :: ChangesKey(w, s, m, index)
  }

  /** One valid update or delete of the tenant's own row. */
  ghost predicate OwnChange(w: World, s: Store, m: Mutation) {
    && WellFormed(w) && m.table in w.tables && Validate(m, w.tables[m.table].pkColumn, w.tables[m.table].Indexed()) == Accepted
    && (m.op == Update || m.op == Delete) && StoreOk(w, s) && s.broken == {} && Exact(w, s) && KeysAreOwn(s, [m], m.tenant)
  }

  /** The two verdicts differ exactly on conditions that name a column without an index, or
      compare with NULL. */
  lemma MisjudgedOnlyBy(w: World, s: Store, m: Mutation)
    requires OwnChange(w, s, m)
    ensures Hits(w, s, m) && !SeesMatch(w, s, m) <==> Hits(w, s, m) && !(m.where_.Keys <= w.tables[m.table].Indexed())
    ensures SeesMatch(w, s, m) && !Hits(w, s, m) ==> exists c :: c in m.where_ && m.where_[c] == Null
  {
    var def := w.tables[m.table];
    if def.pkColumn in m.where_ { assert m.where_[def.pkColumn] == Val(m.partitionKey); }
    if SeesMatch(w, s, m) && !Hits(w, s, m) {
      var c :| c in m.where_ && c != def.pkColumn && !(m.where_[c] != Null && Get(RowOf(w, s, m).value, c) == m.where_[c]);
      assert m.where_[c] == Null;
    }
  }

  lemma ChangeRuns(w: World, s: Store, m: Mutation)
    requires OwnChange(w, s, m)
    ensures Runs(w, s, m) && [m][..0] == [] && StoreAfter(w, s, [m]) == After(w, s, m, RawNext(w, s, [], m))
    ensures w.tables[m.table].Indexed() != {} ==> RawNext(w, s, [], m) == Project(RowOf(w, s, m), w.tables[m.table].Indexed())
  {
    assert [m][..0] == [];
    StoreAfterStep(w, s, [m]);
  }

  /** The keys the gateway derives from what it has read are those of the whole row. */
  lemma ProjectedKeys(w: World, s: Store, m: Mutation, f: IndexDef)
    requires OwnChange(w, s, m) && f in w.tables[m.table].indexes && RowOf(w, s, m).Some?
    ensures var row, seen := RowOf(w, s, m), Project(RowOf(w, s, m), w.tables[m.table].Indexed());
      KeyOf(f.columns, seen.value) == KeyOf(f.columns, row.value) && KeyOf(f.columns, Over(seen, m.values)) == KeyOf(f.columns, Over(row, m.values))
  {
    var row, seen := RowOf(w, s, m), Project(RowOf(w, s, m), w.tables[m.table].Indexed());
    forall c | c in f.columns ensures c in w.tables[m.table].Indexed() {}
    KeyOfAgrees(f.columns, seen.value, row.value);
    KeyOfAgrees(f.columns, Over(seen, m.values), Over(row, m.values));
  }

  /** And the key of the updated row is the one it derives. */
  lemma UpdatedKey(w: World, s: Store, m: Mutation, f: IndexDef)
    requires OwnChange(w, s, m) && m.op == Update && Hits(w, s, m)
    ensures EffectOf(w, s, m).row.Some? && KeyOf(f.columns, EffectOf(w, s, m).row.value) == KeyOf(f.columns, Over(RowOf(w, s, m), m.values))
  {
    var def, row := w.tables[m.table], RowOf(w, s, m);
    assert IsKeyed(def, row, m.partitionKey);
    if def.pkColumn in m.values { assert m.values[def.pkColumn] == Val(m.partitionKey); }
    KeyOfAgrees(f.columns, EffectOf(w, s, m).row.value, Over(row, m.values));
  }

  /** A cell of the row when the verdicts differ: the entry is moved without the row, or the
      row without the entry. */
  lemma MisjudgedCell(w: World, s: Store, m: Mutation, shard: ShardId, e: EntryKey)
    requires OwnChange(w, s, m) && IsCellOf(w, m, shard, e) && SeesMatch(w, s, m) != Hits(w, s, m) && HasKey(w, s.rows, SlotOf(w, m.Key()), shard, e)
    ensures var s' := StoreAfter(w, s, [m]); var at := SlotOf(w, m.Key());
      && Lookup(s', shard, e) == (if SeesMatch(w, s, m) && ChangesKey(w, s, m, e.index) then None else Some(m.tenant))
      && HasKey(w, s'.rows, at, shard, e) == !(Hits(w, s, m) && ChangesKey(w, s, m, e.index))
      && (at in s'.rows ==> s'.rows[at].tenant == m.tenant)
  {
    var def, f, raw := w.tables[m.table], Find(w.tables[m.table].indexes, e.index).value, RawNext(w, s, [], m);
    ChangeRuns(w, s, m);
    StepCell(w, s, m, raw, shard, e);
    NotFoundMeansOther(def.indexes, e.index);
    assert f.columns[0] in f.columns && f.columns[0] in def.Indexed();
    ProjectedKeys(w, s, m, f);
    if m.op == Update && Hits(w, s, m) { UpdatedKey(w, s, m, f); }
    HolderOwns(w, s, m, shard, e);
    assert CellIsExact(w, s, shard, e);
  }

  /** The keys the row does not have before are not disturbed unless some key changes. */
  lemma UnchangedCell(w: World, s: Store, m: Mutation, shard: ShardId, e: EntryKey)
    requires OwnChange(w, s, m) && SeesMatch(w, s, m) != Hits(w, s, m) && !ChangesSomeKey(w, s, m)
    ensures CellIsExact(w, StoreAfter(w, s, [m]), shard, e)
  {
    var def, raw, at := w.tables[m.table], RawNext(w, s, [], m), SlotOf(w, m.Key());
    var s' := StoreAfter(w, s, [m]);
    ChangeRuns(w, s, m);
    StepCell(w, s, m, raw, shard, e);
    NotFoundMeansOther(def.indexes, e.index);
    assert CellIsExact(w, s, shard, e);
    if IsCellOf(w, m, shard, e) {
      var f := Find(def.indexes, e.index).value;
      assert f.columns[0] in f.columns && f.columns[0] in def.Indexed();
      assert RowOf(w, s, m).Some? && !ChangesKey(w, s, m, e.index);
      ProjectedKeys(w, s, m, f);
      if Hits(w, s, m) { UpdatedKey(w, s, m, f); }
      assert HasKey(w, s'.rows, at, shard, e) == HasKey(w, s.rows, at, shard, e);
    }
    forall t: string ensures Owns(w, s'.rows, t, shard, e) == Owns(w, s.rows, t, shard, e) {
      if SlotFor(w, t, e) != at { OthersKeep(w, s, m, raw, SlotFor(w, t, e), shard, e); }
    }
  }

  lemma MisjudgedIsInexact(w: World, s: Store, m: Mutation, index: string)
    requires OwnChange(w, s, m) && SeesMatch(w, s, m) != Hits(w, s, m) && RowOf(w, s, m).Some? && ChangesKey(w, s, m, index)
    ensures !Exact(w, StoreAfter(w, s, [m]))
  {
    var f := Find(w.tables[m.table].indexes, index).value;
    var e := EntryAt(m, f, KeyOf(f.columns, RowOf(w, s, m).value));
    var shard, s' := PlaceOf(w, m, f, e.key), StoreAfter(w, s, [m]);
    NotFoundMeansOther(w.tables[m.table].indexes, index);
    MisjudgedCell(w, s, m, shard, e);
    assert SlotFor(w, m.tenant, e) == SlotOf(w, m.Key());
    assert !(Lookup(s', shard, e) == Some(m.tenant) <==> Owns(w, s'.rows, m.tenant, shard, e));
    assert !CellIsExact(w, s', shard, e);
  }

  /** One update or delete of the tenant's own row keeps the index exact exactly when the
      gateway and the statement agree on its conditions, or no index key would change. */
  lemma ConditionKeepsIndexIff(w: World, s: Store, m: Mutation)
    requires OwnChange(w, s, m)
    ensures Exact(w, StoreAfter(w, s, [m])) <==> SeesMatch(w, s, m) == Hits(w, s, m) || !ChangesSomeKey(w, s, m)
  {
    ChangeRuns(w, s, m);
    if SeesMatch(w, s, m) == Hits(w, s, m) {
      AgreedIsExact(w, s, m);
    } else if ChangesSomeKey(w, s, m) {
      var index: string :| ChangesKey(w, s, m, index);
      MisjudgedIsInexact(w, s, m, index);
    } else {
      forall shard: ShardId, e: EntryKey ensures CellIsExact(w, StoreAfter(w, s, [m]), shard, e) { UnchangedCell(w, s, m, shard, e); }
    }
  }

  lemma AgreedIsExact(w: World, s: Store, m: Mutation)
    requires OwnChange(w, s, m) && SeesMatch(w, s, m) == Hits(w, s, m)
    ensures Exact(w, StoreAfter(w, s, [m]))
  {
    ChangeRuns(w, s, m);
    var raw := RawNext(w, s, [], m);
    if Hits(w, s, m) {
      StepCell(w, s, m, raw, "", EntryKey("", "", [], ""));
      SeenIsCovered(w, s, m);
      BatchKeepsIndex(w, s, [m], m.tenant);
    } else {
      UnaffectedRows(w, s, m, raw);
      forall shard: ShardId, e: EntryKey ensures CellIsExact(w, StoreAfter(w, s, [m]), shard, e) { UnmatchedCell(w, s, m, shard, e); }
    }
  }

  lemma SeenIsCovered(w: World, s: Store, m: Mutation)
    requires OwnChange(w, s, m) && SeesMatch(w, s, m) && Hits(w, s, m)
    ensures BatchOk(w, [m], m.tenant)
  {
    var def := w.tables[m.table];
    if def.pkColumn in m.where_ { assert m.where_[def.pkColumn] == Val(m.partitionKey); }
    assert Covered(def, m);
  }

  lemma UnmatchedCell(w: World, s: Store, m: Mutation, shard: ShardId, e: EntryKey)
    requires OwnChange(w, s, m) && !SeesMatch(w, s, m) && !Hits(w, s, m)
    ensures CellIsExact(w, StoreAfter(w, s, [m]), shard, e)
  {
    ChangeRuns(w, s, m);
    var raw := RawNext(w, s, [], m);
    UnaffectedRows(w, s, m, raw);
    StepCell(w, s, m, raw, shard, e);
    NotFoundMeansOther(w.tables[m.table].indexes, e.index);
    assert CellIsExact(w, s, shard, e);
  }

  /** So an update or delete that finds its row and changes an index key keeps the index
      exact exactly when its conditions name indexed columns only. */
  lemma UnindexedConditionIff(w: World, s: Store, m: Mutation)
    requires OwnChange(w, s, m) && Hits(w, s, m) && ChangesSomeKey(w, s, m)
    ensures Exact(w, StoreAfter(w, s, [m])) <==> m.where_.Keys <= w.tables[m.table].Indexed()
  {
    ConditionKeepsIndexIff(w, s, m);
    MisjudgedOnlyBy(w, s, m);
  }

  // ---- grouping by shard ----

  function Only(intents: seq<Addressed>, shard: ShardId): seq<Addressed> {
    if intents == [] then []
    else if intents[|intents| - 1].shard == shard then Only(intents[..|intents| - 1], shard) + [intents[|intents| - 1]]
    else Only(intents[..|intents| - 1], shard)
  }

  predicate SameRow(x: Store, y: Store, at: Slot) {
    (at in x.rows <==> at in y.rows) && (at in x.rows ==> x.rows[at] == y.rows[at]) && (at in x.broken <==> at in y.broken)
  }

  lemma ApplyRow(w: World, x: Store, y: Store, a: Addressed, at: Slot)
    requires SameRow(x, y, at)
    ensures SameRow(Apply(w, x, a), Apply(w, y, a), at)
    ensures a.shard != at.shard ==> SameRow(Apply(w, x, a), y, at)
  {
    if a.intent.Base? {
      var own := Slot(a.shard, a.intent.m.table, a.intent.m.partitionKey);
      if own == at { BaseHere(w, x, y, at, a.intent.m); }
      else {
        BaseElsewhere(w, x, own, a.intent.m, at);
        BaseElsewhere(w, y, own, a.intent.m, at);
      }
    }
  }

  lemma BaseHere(w: World, x: Store, y: Store, at: Slot, m: Mutation)
    requires SameRow(x, y, at)
    ensures SameRow(ApplyBase(w, x, at, m), ApplyBase(w, y, at, m), at)
  {
    assert RowIn(x.rows, at) == RowIn(y.rows, at);
  }

  lemma BaseElsewhere(w: World, x: Store, own: Slot, m: Mutation, at: Slot)
    requires own != at
    ensures SameRow(ApplyBase(w, x, own, m), x, at)
  {
  }

  lemma ApplyEntry(w: World, x: Store, y: Store, a: Addressed, shard: ShardId, e: EntryKey)
    requires Lookup(x, shard, e) == Lookup(y, shard, e)
    ensures Lookup(Apply(w, x, a), shard, e) == Lookup(Apply(w, y, a), shard, e)
    ensures a.shard != shard ==> Lookup(Apply(w, x, a), shard, e) == Lookup(y, shard, e)
  {
  }

  /** What happens to a row depends on its own shard's intents only. */
  lemma {:induction false} RowIsLocal(w: World, s: Store, intents: seq<Addressed>, at: Slot)
    ensures SameRow(Run(w, s, intents), Run(w, s, Only(intents, at.shard)), at)
  {
    if intents != [] {
      var n := |intents| - 1;
      RowIsLocal(w, s, intents[..n], at);
      var mine := Only(intents[..n], at.shard);
      RunJoin(w, s, mine, [intents[n]]);
      RunOne(w, Run(w, s, mine), intents[n]);
      ApplyRow(w, Run(w, s, intents[..n]), Run(w, s, mine), intents[n], at);
    }
  }

  lemma {:induction false} EntryIsLocal(w: World, s: Store, intents: seq<Addressed>, shard: ShardId, e: EntryKey)
    ensures Lookup(Run(w, s, intents), shard, e) == Lookup(Run(w, s, Only(intents, shard)), shard, e)
  {
    if intents != [] {
      var n := |intents| - 1;
      EntryIsLocal(w, s, intents[..n], shard, e);
      var mine := Only(intents[..n], shard);
      RunJoin(w, s, mine, [intents[n]]);
      RunOne(w, Run(w, s, mine), intents[n]);
      ApplyEntry(w, Run(w, s, intents[..n]), Run(w, s, mine), intents[n], shard, e);
    }
  }

  /** Any two schedules that agree shard by shard have the same effect: regrouping a batch
      by shard, and running the shards in any interleaving, changes nothing. */
  lemma RegroupingIsFaithful(w: World, s: Store, a: seq<Addressed>, b: seq<Addressed>)
    requires forall shard: ShardId :: Only(a, shard) == Only(b, shard)
    ensures Run(w, s, a) == Run(w, s, b)
  {
    var x, y := Run(w, s, a), Run(w, s, b);
    forall at: Slot ensures SameRow(x, y, at) {
      RowIsLocal(w, s, a, at);
      RowIsLocal(w, s, b, at);
    }
    forall shard: ShardId, e: EntryKey ensures Lookup(x, shard, e) == Lookup(y, shard, e) {
      EntryIsLocal(w, s, a, shard, e);
      EntryIsLocal(w, s, b, shard, e);
    }
    assert x.rows == y.rows by {
      forall at: Slot ensures (at in x.rows <==> at in y.rows) && (at in x.rows ==> x.rows[at] == y.rows[at]) {
        assert SameRow(x, y, at);
      }
    }
    assert x.entries == y.entries by {
      forall cell: (ShardId, EntryKey) ensures (cell in x.entries <==> cell in y.entries) && (cell in x.entries ==> x.entries[cell] == y.entries[cell]) {
        assert Lookup(x, cell.0, cell.1) == Lookup(y, cell.0, cell.1);
      }
    }
    assert x.broken == y.broken by {
      forall at: Slot ensures at in x.broken <==> at in y.broken { assert SameRow(x, y, at); }
    }
  }

  // ---- the gateway's loop ----

  const MAX_TX_PARTICIPANT_KEYS := 8

  /** Why one mutation stops the batch: it lacks a field, its table has no route, or it is
      invalid. */
  datatype Refusal = MissingFields | NoRoute | Invalid(validation: Validation)

  datatype TxResult = NoMutations | TooManyRows | Rejected(at: nat, why: Refusal) | Grouped(groups: map<ShardId, seq<Addressed>>)

  function RowKeys(ms: seq<Mutation>): set<RowKey> { set i | 0 <= i < |ms| :: ms[i].Key() }

  function GroupOf(groups: map<ShardId, seq<Addressed>>, shard: ShardId): seq<Addressed> { if shard in groups then groups[shard] else [] }

  ghost predicate Groups(groups: map<ShardId, seq<Addressed>>, intents: seq<Addressed>) {
    forall shard: ShardId :: GroupOf(groups, shard) == Only(intents, shard)
  }

  method AddIntents(groups: map<ShardId, seq<Addressed>>, more: seq<Addressed>, ghost intents: seq<Addressed>) returns (grown: map<ShardId, seq<Addressed>>)
    requires Groups(groups, intents)
    ensures Groups(grown, intents + more)
  {
    grown := groups;
    assert intents + more[..0] == intents;
    for i := 0 to |more|
      invariant Groups(grown, intents + more[..i])
    {
      var a := more[i];
      ghost var prior := intents + more[..i];
      assert intents + more[..i + 1] == prior + [a];
      assert (prior + [a])[..|prior|] == prior;
      grown := grown[a.shard := GroupOf(grown, a.shard) + [a]];
    }
    assert more[..|more|] == more;
  }

  method MutationIntents(w: World, def: TableDef, raw: Option<Row>, m: Mutation) returns (intents: seq<Addressed>)
    ensures intents == StepIntents(w, def, raw, m)
  {
    var deltas := ComputeIndexDeltas(def.indexes, m.op, Before(raw, m), m.values);
    var index: seq<Addressed> := [];
    for i := 0 to |deltas|
      invariant index == DeltaIntents(w, m, deltas[..i])
    {
      var d := deltas[i];
      assert deltas[..i + 1] == deltas[..i] + [d];
      DeltaIntentsSnoc(w, m, deltas[..i], d);
      if d.index.ring != [] {
        ghost var before := index;
        if d.oldKey.Some? { index := index + [Addressed(PlaceOf(w, m, d.index, d.oldKey.value), Drop(EntryAt(m, d.index, d.oldKey.value)))]; }
        assert index == before + DropIntents(w, m, d);
        if d.newKey.Some? { index := index + [Addressed(PlaceOf(w, m, d.index, d.newKey.value), Put(EntryAt(m, d.index, d.newKey.value), m.tenant))]; }
        assert index == before + (DropIntents(w, m, d) + PutIntents(w, m, d));
      }
    }
    assert deltas[..|deltas|] == deltas;
    intents := [Addressed(w.home(m.Key()), Base(m))] + index;
  }

  function ValidationOf(w: World, m: Mutation): Validation
    requires m.table in w.tables
  {
    Validate(m, w.tables[m.table].pkColumn, w.tables[m.table].Indexed())
  }

  predicate AllAccepted(w: World, ms: seq<Mutation>)
    requires Routable(w, ms)
  {
    forall j | 0 <= j < |ms| :: ValidationOf(w, ms[j]) == Accepted
  }

  /** Groups and simulation of the mutations done so far. */
  ghost predicate Planning(w: World, rows: Rows, done: seq<Mutation>, groups: map<ShardId, seq<Addressed>>, sim: Simulated) {
    Routable(w, done) && AllAccepted(w, done) && Groups(groups, Plan(w, rows, done).intents) && sim == Plan(w, rows, done).sim
  }

  lemma PlanSnoc(w: World, rows: Rows, done: seq<Mutation>, m: Mutation)
    requires Routable(w, done) && m.table in w.tables
    ensures Routable(w, done + [m]) && Plan(w, rows, done + [m]) == PlanStep(w, rows, Plan(w, rows, done), m)
  {
    assert (done + [m])[..|done|] == done;
  }

  /** One turn of the loop. */
  method PlanMutation(w: World, rows: Rows, m: Mutation, groups: map<ShardId, seq<Addressed>>, sim: Simulated, ghost done: seq<Mutation>)
    returns (grown: map<ShardId, seq<Addressed>>, next: Simulated)
    requires m.table in w.tables && ValidationOf(w, m) == Accepted && Planning(w, rows, done, groups, sim)
    ensures Planning(w, rows, done + [m], grown, next)
  {
    var def := w.tables[m.table];
    var raw := Raw(w, def, rows, sim, m);
    var intents := MutationIntents(w, def, raw, m);
    grown := AddIntents(groups, intents, Plan(w, rows, done).intents);
    next := if def.Indexed() != {} then sim[m.Key() := NextRow(def, raw, m)] else sim;
    PlanSnoc(w, rows, done, m);
  }

  /** What a mutation needs to become part of a batch. */
  ghost predicate MayJoin(w: World, m: Mutation) {
    NamesRow(m) && m.table in w.tables && WellPosed(m, w.tables[m.table].pkColumn, w.tables[m.table].Indexed())
  }

  ghost predicate IsRefusal(w: World, m: Mutation, why: Refusal) {
    match why
    case MissingFields => !NamesRow(m)
    case NoRoute => m.table !in w.tables
    case Invalid(validation) => m.table in w.tables && HasDefect(m, w.tables[m.table].pkColumn, w.tables[m.table].Indexed(), validation)
  }

  /** The checks of one turn. */
  method CheckMutation(w: World, m: Mutation) returns (refusal: Option<Refusal>)
    ensures refusal == None <==> MayJoin(w, m)
    ensures refusal == None ==> m.table in w.tables && ValidationOf(w, m) == Accepted
    ensures refusal.Some? ==> IsRefusal(w, m, refusal.value)
  {
    if m.table == "" || m.tenant == "" || m.partitionKey == "" { return Some(MissingFields); }
    if m.table !in w.tables { return Some(NoRoute); }
    var def := w.tables[m.table];
    AcceptedIff(m, def.pkColumn, def.Indexed());
    var validation := ValidationOf(w, m);
    if validation != Accepted {
      RefusalIsDefect(m, def.pkColumn, def.Indexed());
      return Some(Invalid(validation));
    }
    return None;
  }

  /** The batch is refused at its first mutation that may not join, for a defect it has, and
      otherwise becomes one list of intents per shard; run in any interleaving of the
      shards, those lists have the effect of the batch in batch order. */
  method TxCore(w: World, rows: Rows, ms: seq<Mutation>) returns (r: TxResult)
    ensures r.NoMutations? <==> ms == []
    ensures r.TooManyRows? <==> |RowKeys(ms)| > MAX_TX_PARTICIPANT_KEYS
    ensures r.Rejected? ==> r.at < |ms| && !MayJoin(w, ms[r.at]) && IsRefusal(w, ms[r.at], r.why)
    ensures r.Rejected? ==> forall j | 0 <= j < r.at :: MayJoin(w, ms[j])
    ensures r.Grouped? <==> ms != [] && |RowKeys(ms)| <= MAX_TX_PARTICIPANT_KEYS && forall j | 0 <= j < |ms| :: MayJoin(w, ms[j])
    ensures r.Grouped? ==> Routable(w, ms) && Groups(r.groups, Plan(w, rows, ms).intents)
  {
    if ms == [] { return NoMutations; }
    if |RowKeys(ms)| > MAX_TX_PARTICIPANT_KEYS { return TooManyRows; }
    var groups: map<ShardId, seq<Addressed>> := map[];
    var sim: Simulated := map[];
    assert ms[..0] == [];
    for i := 0 to |ms|
      invariant Planning(w, rows, ms[..i], groups, sim)
      invariant forall j | 0 <= j < i :: MayJoin(w, ms[j])
    {
      var refusal := CheckMutation(w, ms[i]);
      if refusal.Some? { return Rejected(i, refusal.value); }
      assert ms[..i + 1] == ms[..i] + [ms[i]];
      groups, sim := PlanMutation(w, rows, ms[i], groups, sim, ms[..i]);
    }
    assert ms[..|ms|] == ms;
    r := Grouped(groups);
  }

  /** Together: run the grouped lists in any interleaving, and the index is the image of
      the final rows. */
  lemma GroupedBatchKeepsIndex(w: World, s: Store, ms: seq<Mutation>, tenant: string, groups: map<ShardId, seq<Addressed>>, schedule: seq<Addressed>)
    requires BatchOk(w, ms, tenant) && StoreOk(w, s) && Exact(w, s) && KeysAreOwn(s, ms, tenant)
    requires Groups(groups, Plan(w, s.rows, ms).intents)
    requires forall shard: ShardId :: Only(schedule, shard) == GroupOf(groups, shard)
    requires Run(w, s, schedule).broken == {}
    ensures Exact(w, Run(w, s, schedule)) && Run(w, s, schedule).rows == StoreAfter(w, s, ms).rows
  {
    assert forall shard: ShardId :: Only(schedule, shard) == Only(Plan(w, s.rows, ms).intents, shard);
    RegroupingIsFaithful(w, s, schedule, Plan(w, s.rows, ms).intents);
    BatchKeepsIndex(w, s, ms, tenant);
  }
}
