/** Structured mutations: what the gateway accepts, and what the compiled statement does
    to the one row it addresses. */
module StructuredOp {
  import opened Basics

  datatype Value = Null | Val(text: string)

  type Column = string
  type Row = map<Column, Value>

  function Get(row: Row, c: Column): Value { if c in row then row[c] else Null }

  datatype Op = Insert | Update | Delete | Upsert

  datatype Mutation = Mutation(
    op: Op, table: string, tenant: string, partitionKey: string,
    where_: map<Column, Value>, values: map<Column, Value>, conflictColumns: set<Column>)
  {
    function Key(): RowKey { RowKey(tenant, table, partitionKey) }
  }

  datatype RowKey = RowKey(tenant: string, table: string, partitionKey: string)

  datatype Validation = Accepted
    | PartitionKeyColumnUnset | MissingTable | MissingTenantId | MissingPartitionKey
    | UnsafeIdentifier | PartitionKeyConflict | MissingValues | IndexedColumnRequiresValue

  /** What the catalog stores for a table without a partition key column. */
  const UNSET_PARTITION_KEY_COLUMN := "__unset__"

  predicate IsIdentifierStart(c: char) { 'A' <= c <= 'Z' || 'a' <= c <= 'z' || c == '_' }

  predicate IsIdentifier(name: string) {
    name != "" && IsIdentifierStart(name[0]) && forall i | 0 <= i < |name| :: IsIdentifierStart(name[i]) || '0' <= name[i] <= '9'
  }

  predicate AllIdentifiers(columns: set<Column>) { forall c | c in columns :: IsIdentifier(c) }

  predicate PkConflicts(values: map<Column, Value>, pkColumn: Column, pk: string) {
    pkColumn in values && values[pkColumn] != Val(pk)
  }

  /** validateMutation, and the rule that an insert or upsert names every indexed column. */
  function Validate(m: Mutation, pkColumn: Column, indexed: set<Column>): Validation {
    if pkColumn == UNSET_PARTITION_KEY_COLUMN then PartitionKeyColumnUnset
    else if m.table == "" then MissingTable
    else if m.tenant == "" then MissingTenantId
    else if m.partitionKey == "" then MissingPartitionKey
    else if !AllIdentifiers(m.where_.Keys) || !AllIdentifiers(m.values.Keys) || !AllIdentifiers(m.conflictColumns) then UnsafeIdentifier
    else if PkConflicts(m.where_, pkColumn, m.partitionKey) || PkConflicts(m.values, pkColumn, m.partitionKey) then PartitionKeyConflict
    else if (m.op == Insert || m.op == Upsert) && m.values == map[] then MissingValues
    else if m.op == Update && m.values.Keys - {pkColumn} == {} then MissingValues
    else if (m.op == Insert || m.op == Upsert) && !(indexed <= m.values.Keys) then IndexedColumnRequiresValue
    else Accepted
  }

  // ---- what is accepted ----

  /** It names a row: table, tenant and partition key. */
  predicate NamesRow(m: Mutation) { m.table != "" && m.tenant != "" && m.partitionKey != "" }

  /** Every column it names is an identifier. */
  ghost predicate NamesColumns(m: Mutation) {
    forall c | c in m.where_ || c in m.values || c in m.conflictColumns :: IsIdentifier(c)
  }

  /** Wherever it mentions the partition key column, it is with its own key. */
  predicate KeepsKey(m: Mutation, pkColumn: Column) {
    (pkColumn in m.where_ ==> m.where_[pkColumn] == Val(m.partitionKey)) && (pkColumn in m.values ==> m.values[pkColumn] == Val(m.partitionKey))
  }

  /** It has the values its operation needs: an update something to set, an insert or upsert
      at least one value and all indexed ones. */
  ghost predicate HasValues(m: Mutation, pkColumn: Column, indexed: set<Column>) {
    match m.op
    case Delete => true
    case Update => exists c :: c in m.values && c != pkColumn
    case _ => (exists c :: c in m.values) && forall c | c in indexed :: c in m.values
  }

  ghost predicate WellPosed(m: Mutation, pkColumn: Column, indexed: set<Column>) {
    pkColumn != UNSET_PARTITION_KEY_COLUMN && NamesRow(m) && NamesColumns(m) && KeepsKey(m, pkColumn) && HasValues(m, pkColumn, indexed)
  }

  lemma AcceptedIff(m: Mutation, pkColumn: Column, indexed: set<Column>)
    ensures Validate(m, pkColumn, indexed) == Accepted <==> WellPosed(m, pkColumn, indexed)
  {
    SettableIff(m, pkColumn);
    NonEmptyIff(m.values);
    assert NamesColumns(m) <==> AllIdentifiers(m.where_.Keys) && AllIdentifiers(m.values.Keys) && AllIdentifiers(m.conflictColumns);
  }

  lemma SettableIff(m: Mutation, pkColumn: Column)
    ensures m.values.Keys - {pkColumn} != {} <==> exists c :: c in m.values && c != pkColumn
  {
    if c :| c in m.values && c != pkColumn { assert c in m.values.Keys - {pkColumn}; }
  }

  lemma NonEmptyIff(values: map<Column, Value>)
    ensures values != map[] <==> exists c :: c in values
  {
    assert values.Keys == {} ==> values == map[];
  }

  /** The defect that a refusal names. */
  ghost predicate HasDefect(m: Mutation, pkColumn: Column, indexed: set<Column>, why: Validation) {
    match why
    case Accepted => false
    case PartitionKeyColumnUnset => pkColumn == UNSET_PARTITION_KEY_COLUMN
    case MissingTable => m.table == ""
    case MissingTenantId => m.tenant == ""
    case MissingPartitionKey => m.partitionKey == ""
    case UnsafeIdentifier => exists c :: (c in m.where_ || c in m.values || c in m.conflictColumns) && !IsIdentifier(c)
    case PartitionKeyConflict => !KeepsKey(m, pkColumn)
    case MissingValues => m.op != Delete && forall c | c in m.values :: m.op == Update && c == pkColumn
    case IndexedColumnRequiresValue => (m.op == Insert || m.op == Upsert) && exists c :: c in indexed && c !in m.values
  }

  /** A refused mutation has the defect it is refused for. */
  lemma RefusalIsDefect(m: Mutation, pkColumn: Column, indexed: set<Column>)
    requires Validate(m, pkColumn, indexed) != Accepted
    ensures HasDefect(m, pkColumn, indexed, Validate(m, pkColumn, indexed))
  {
    match Validate(m, pkColumn, indexed)
    case MissingValues =>
      SettableIff(m, pkColumn);
      NonEmptyIff(m.values);
    case IndexedColumnRequiresValue =>
      var c :| c in indexed && c !in m.values.Keys;
      assert c !in m.values;
    case _ =>
  }

  // ---- what the compiled statement does ----

  /** SQL equality: NULL equals nothing. The partition key is matched by the caller. */
  predicate SqlMatches(row: Row, pkColumn: Column, where_: map<Column, Value>) {
    forall c | c in where_ && c != pkColumn :: where_[c] != Null && Get(row, c) == where_[c]
  }

  /** `affected` is whether the statement counts the row as changed. */
  datatype Outcome = Ran(row: Option<Row>, affected: bool) | ConstraintError

  function Written(m: Mutation, pkColumn: Column): Row { m.values[pkColumn := Val(m.partitionKey)] }

  /** The columns of an upsert's ON CONFLICT target; the partition key when none is given. */
  function ConflictTarget(m: Mutation, pkColumn: Column): set<Column> {
    if m.conflictColumns == {} then {pkColumn} else m.conflictColumns
  }

  /** The proposed row collides with the stored one on the whole conflict target. */
  predicate HitsConflict(row: Row, m: Mutation, pkColumn: Column) {
    forall c | c in ConflictTarget(m, pkColumn) :: Get(Written(m, pkColumn), c) != Null && Get(row, c) == Get(Written(m, pkColumn), c)
  }

  /** The row with this partition key after the statement. The key is unique, so an insert
      that meets a row fails; an upsert that has nothing to set does nothing. */
  function Effect(row: Option<Row>, m: Mutation, pkColumn: Column): Outcome {
    match m.op
    case Insert => if row.Some? then ConstraintError else Ran(Some(Written(m, pkColumn)), true)
    case Update =>
      if row.None? || !SqlMatches(row.value, pkColumn, m.where_) then Ran(row, false)
      else Ran(Some(row.value + (m.values - {pkColumn})), true)
    case Delete => if row.None? || !SqlMatches(row.value, pkColumn, m.where_) then Ran(row, false) else Ran(None, true)
    case Upsert =>
      if row.None? then Ran(Some(Written(m, pkColumn)), true)
      else if HitsConflict(row.value, m, pkColumn) then
        var set_ := Written(m, pkColumn) - ConflictTarget(m, pkColumn);
        Ran(Some(row.value + set_), set_ != map[])
      else ConstraintError
  }

  /** A statement that counts no row as changed changes none. */
  lemma UnaffectedIsSame(row: Option<Row>, m: Mutation, pkColumn: Column)
    requires Effect(row, m, pkColumn).Ran? && !Effect(row, m, pkColumn).affected
    ensures Effect(row, m, pkColumn).row == row
  {
    if m.op == Upsert && row.Some? { assert row.value + map[] == row.value; }
  }

  // ---- what an accepted statement does ----

  /** It addresses one row and never gives it another key. */
  lemma AcceptedKeepsKey(row: Option<Row>, m: Mutation, pkColumn: Column, indexed: set<Column>)
    requires Validate(m, pkColumn, indexed) == Accepted && Effect(row, m, pkColumn).Ran?
    requires row.Some? ==> Get(row.value, pkColumn) == Val(m.partitionKey)
    ensures KeepsKey(m, pkColumn)
    ensures var row' := Effect(row, m, pkColumn).row; row'.Some? ==> Get(row'.value, pkColumn) == Val(m.partitionKey)
  {
  }

  /** An accepted update that hits its row sets at least one column besides the key, each to
      the given value, and leaves the others. */
  lemma AcceptedUpdateSets(row: Row, m: Mutation, pkColumn: Column, indexed: set<Column>)
    requires m.op == Update && Validate(m, pkColumn, indexed) == Accepted && SqlMatches(row, pkColumn, m.where_)
    ensures Effect(Some(row), m, pkColumn).Ran? && Effect(Some(row), m, pkColumn).affected && Effect(Some(row), m, pkColumn).row.Some?
    ensures exists c :: c in m.values && c != pkColumn
    ensures forall c: Column :: Get(Effect(Some(row), m, pkColumn).row.value, c) == if c in m.values && c != pkColumn then m.values[c] else Get(row, c)
  {
    AcceptedIff(m, pkColumn, indexed);
  }

  /** An accepted insert or upsert of a new row stores exactly the given values under the key. */
  lemma AcceptedInsertStores(m: Mutation, pkColumn: Column, indexed: set<Column>)
    requires (m.op == Insert || m.op == Upsert) && Validate(m, pkColumn, indexed) == Accepted
    ensures Effect(None, m, pkColumn).Ran? && Effect(None, m, pkColumn).affected && Effect(None, m, pkColumn).row.Some?
    ensures forall c: Column :: Get(Effect(None, m, pkColumn).row.value, c) == if c == pkColumn then Val(m.partitionKey) else Get(m.values, c)
    ensures forall c | c in indexed :: c in m.values && (c != pkColumn ==> Get(Effect(None, m, pkColumn).row.value, c) == m.values[c])
  {
    AcceptedIff(m, pkColumn, indexed);
  }

  /** An accepted upsert onto its row, by the key, sets the given values and leaves the rest. */
  lemma AcceptedUpsertSets(row: Row, m: Mutation, pkColumn: Column, indexed: set<Column>)
    requires m.op == Upsert && Validate(m, pkColumn, indexed) == Accepted && Get(row, pkColumn) == Val(m.partitionKey)
    requires m.conflictColumns == {} || m.conflictColumns == {pkColumn}
    ensures Effect(Some(row), m, pkColumn).Ran? && Effect(Some(row), m, pkColumn).row.Some?
    ensures forall c: Column :: Get(Effect(Some(row), m, pkColumn).row.value, c) == if c in m.values && c != pkColumn then m.values[c] else Get(row, c)
    ensures Effect(Some(row), m, pkColumn).affected <==> exists c :: c in m.values && c != pkColumn
  {
    var set_ := Written(m, pkColumn) - ConflictTarget(m, pkColumn);
    if c :| c in m.values && c != pkColumn { assert c in set_; }
    assert set_.Keys == {} ==> set_ == map[];
  }

  /** A delete removes its row exactly when all its conditions hold of it. */
  lemma DeleteRemoves(row: Option<Row>, m: Mutation, pkColumn: Column)
    requires m.op == Delete
    ensures var hit := row.Some? && forall c | c in m.where_ && c != pkColumn :: m.where_[c] != Null && Get(row.value, c) == m.where_[c];
      Effect(row, m, pkColumn) == Ran(if hit then None else row, hit)
  {
  }
}
