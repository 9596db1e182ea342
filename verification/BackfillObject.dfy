/** The two resumable copies of the catalog: a virtual bucket's rows to its new shard, and
    the entries of an index that is being built. */
module BackfillObject {
  import opened Collation
  import opened TableScan
  import opened Backfill
  import ShardHash

  const MIGRATE_PAGE_SIZE := 500
  const MIGRATION_BACKFILL_PAGES_PER_TICK := 8
  const INDEX_BACKFILL_PAGE_SIZE := 250

  // ---- a virtual bucket's rows ----

  type RowKey = (string, Key)
  type Copy = Stretch<RowKey, Row>

  /** The tables that own rows of the bucket on the source, with those rows. */
  datatype Table = Table(name: string, rows: Copy)

  function Copies(tables: seq<Table>): seq<Copy> { seq(|tables|, i requires 0 <= i < |tables| => tables[i].rows) }

  ghost predicate ValidTables(tables: seq<Table>) {
    && AllWalkable(Copies(tables))
    && (forall i, j | 0 <= i < j < |tables| :: tables[i].name != tables[j].name)
    && (forall i | 0 <= i < |tables| :: tables[i].name != "")
    && (forall i | 0 <= i < |tables| :: CopiesItself(tables[i]))
  }

  /** A row is copied to its own table and key. */
  ghost predicate CopiesItself(table: Table) { forall k | k in table.rows.items :: table.rows.items[k].0 == (table.name, k) }

  function FindIndex(tables: seq<Table>, name: string): (i: int)
    ensures -1 <= i < |tables| && (i >= 0 ==> tables[i].name == name)
    ensures i < 0 ==> forall k | 0 <= k < |tables| :: tables[k].name != name
  {
    if tables == [] then -1
    else if tables[0].name == name then 0
    else var r := FindIndex(tables[1..], name); if r < 0 then -1 else r + 1
  }

  /** The stored cursor names a table, or the beginning; a table that is gone starts over. */
  function Position(tables: seq<Table>, table: string, after: Key): (nat, Key) {
    var i := FindIndex(tables, table);
    if table != "" && i >= 0 then (i, after) else (0, "")
  }

  lemma PositionOfStored(tables: seq<Table>, at: nat, after: Key)
    requires ValidTables(tables) && at < |tables|
    ensures Position(tables, tables[at].name, after) == (at, after)
  {
  }

  class BucketBackfill {
    var backfillTable: string
    var backfillAfterPk: Key
    var rowsCopied: nat
    var target: map<RowKey, Row>

    constructor (target: map<RowKey, Row>)
      ensures this.target == target && rowsCopied == 0 && backfillTable == ""
    {
      backfillTable, backfillAfterPk, rowsCopied := "", "", 0;
      this.target := target;
    }

    ghost function Ahead(tables: seq<Table>): seq<(RowKey, Row)>
      requires ValidTables(tables)
      reads this
    {
      var p := Position(tables, backfillTable, backfillAfterPk);
      Rest(Copies(tables), p.0, p.1)
    }

    ghost function PagesAhead(tables: seq<Table>): nat
      reads this
    {
      var p := Position(tables, backfillTable, backfillAfterPk);
      PagesLeft(Copies(tables), p.0, p.1, MIGRATE_PAGE_SIZE)
    }

    /** Export one page, import it, move on. */
    method CopyPage(sts: seq<Copy>, at: nat, after: Key) returns (idx: nat, afterPk: Key, copied: nat)
      requires AllWalkable(sts) && at < |sts|
      requires forall k | k in PageAt(sts[at].keys, after, MIGRATE_PAGE_SIZE) :: k in sts[at].items
      modifies this`target
      ensures (idx, afterPk) == NextPosition(sts, at, after, MIGRATE_PAGE_SIZE) && copied == |PageAt(sts[at].keys, after, MIGRATE_PAGE_SIZE)|
      ensures target == Import(old(target), ItemsAt(sts[at], PageAt(sts[at].keys, after, MIGRATE_PAGE_SIZE)))
    {
      idx, afterPk := at, after;
      var rows := PageAt(sts[at].keys, after, MIGRATE_PAGE_SIZE);
      target := Import(target, ItemsAt(sts[at], rows));
      copied := |rows|;
      if |rows| > 0 { afterPk := rows[|rows| - 1]; }
      if |rows| < MIGRATE_PAGE_SIZE {
        idx := idx + 1;
        afterPk := "";
      }
    }

    /** The page loop, up to a budget of pages. */
    method CopyPages(sts: seq<Copy>, from: nat, start: Key, budget: nat) returns (idx: nat, afterPk: Key, copied: nat, ghost done: seq<(RowKey, Row)>)
      requires AllWalkable(sts) && from <= |sts|
      modifies this`target
      ensures idx <= |sts| && copied == |done|
      ensures Walked(sts, old(target), Rest(sts, from, start), target, done, idx, afterPk)
      ensures var ahead := PagesLeft(sts, from, start, MIGRATE_PAGE_SIZE); var left := PagesLeft(sts, idx, afterPk, MIGRATE_PAGE_SIZE);
        left == if ahead <= budget then 0 else ahead - budget
      ensures idx == |sts| <==> PagesLeft(sts, from, start, MIGRATE_PAGE_SIZE) <= budget
    {
      ghost var ahead := Rest(sts, from, start);
      idx, afterPk, copied, done := from, start, 0, [];
      var pages := 0;
      while idx < |sts| && pages < budget
        invariant idx <= |sts| && pages <= budget && copied == |done|
        invariant Walked(sts, old(target), ahead, target, done, idx, afterPk)
        invariant pages + PagesLeft(sts, idx, afterPk, MIGRATE_PAGE_SIZE) == PagesLeft(sts, from, start, MIGRATE_PAGE_SIZE)
        decreases budget - pages
      {
        PageKeepsWalked(sts, old(target), ahead, target, done, idx, afterPk, MIGRATE_PAGE_SIZE);
        PageCounts(sts, idx, afterPk, MIGRATE_PAGE_SIZE);
        done := done + ItemsAt(sts[idx], PageAt(sts[idx].keys, afterPk, MIGRATE_PAGE_SIZE));
        var rows: nat;
        idx, afterPk, rows := CopyPage(sts, idx, afterPk);
        pages := pages + 1;
        copied := copied + rows;
      }
    }

    /** One tick: at most eight pages, then the cursor is stored - or not, when a call to a
        shard throws after some pages and the tick is repeated from the old cursor. What was
        copied and what is ahead together never change. */
    method Tick(tables: seq<Table>, failsAfter: nat) returns (more: bool)
      requires ValidTables(tables)
      modifies this
      ensures more ==> Import(target, Ahead(tables)) == Import(old(target), old(Ahead(tables)))
      ensures !more ==> target == Import(old(target), old(Ahead(tables)))
      ensures failsAfter >= MIGRATION_BACKFILL_PAGES_PER_TICK ==>
        && (more <==> old(PagesAhead(tables)) > MIGRATION_BACKFILL_PAGES_PER_TICK)
        && (more ==> PagesAhead(tables) == old(PagesAhead(tables)) - MIGRATION_BACKFILL_PAGES_PER_TICK
                     && rowsCopied + |Ahead(tables)| == old(rowsCopied + |Ahead(tables)|))
        && (!more ==> rowsCopied == old(rowsCopied + |Ahead(tables)|))
      ensures failsAfter < MIGRATION_BACKFILL_PAGES_PER_TICK ==>
        more && Ahead(tables) == old(Ahead(tables)) && PagesAhead(tables) == old(PagesAhead(tables)) && rowsCopied == old(rowsCopied)
    {
      var sts := Copies(tables);
      var position := Position(tables, backfillTable, backfillAfterPk);
      ghost var before, ahead := target, Ahead(tables);
      var throws := failsAfter < MIGRATION_BACKFILL_PAGES_PER_TICK;
      var idx, afterPk, copied, done := CopyPages(sts, position.0, position.1, if throws then failsAfter else MIGRATION_BACKFILL_PAGES_PER_TICK);
      if throws {
        WalkedAgain(sts, before, ahead, target, done, idx, afterPk);
        return true;
      }
      WalkedSum(sts, before, ahead, target, done, idx, afterPk);
      rowsCopied := rowsCopied + copied;
      more := idx < |tables|;
      if more {
        PositionOfStored(tables, idx, afterPk);
        backfillTable, backfillAfterPk := tables[idx].name, afterPk;
      } else {
        backfillTable, backfillAfterPk := "", "";
      }
    }

    /** So any number of ticks, cut short anywhere (`cuts` says after how many pages), copies
        exactly what one pass would and counts every row once; the ticks that are not cut
        short number one for every eight pages. */
    method Run(tables: seq<Table>, cuts: seq<nat>) returns (ticks: nat)
      requires ValidTables(tables)
      modifies this
      ensures target == Import(old(target), old(Ahead(tables)))
      ensures rowsCopied == old(rowsCopied + |Ahead(tables)|)
      ensures old(PagesAhead(tables)) <= MIGRATION_BACKFILL_PAGES_PER_TICK * ticks < old(PagesAhead(tables)) + 2 * MIGRATION_BACKFILL_PAGES_PER_TICK
    {
      var more, n := true, 0;
      ticks := 0;
      while more
        invariant n <= |cuts|
        invariant more ==> Import(target, Ahead(tables)) == Import(old(target), old(Ahead(tables)))
        invariant more ==> rowsCopied + |Ahead(tables)| == old(rowsCopied + |Ahead(tables)|)
        invariant more ==> PagesAhead(tables) + MIGRATION_BACKFILL_PAGES_PER_TICK * ticks == old(PagesAhead(tables))
        invariant !more ==> target == Import(old(target), old(Ahead(tables)))
        invariant !more ==> rowsCopied == old(rowsCopied + |Ahead(tables)|)
        invariant !more ==> old(PagesAhead(tables)) <= MIGRATION_BACKFILL_PAGES_PER_TICK * ticks < old(PagesAhead(tables)) + 2 * MIGRATION_BACKFILL_PAGES_PER_TICK
        decreases more, |cuts| - n, if more then PagesAhead(tables) else 0
      {
        var failsAfter := MIGRATION_BACKFILL_PAGES_PER_TICK;
        if n < |cuts| {
          failsAfter := cuts[n];
          n := n + 1;
        }
        more := Tick(tables, failsAfter);
        if failsAfter >= MIGRATION_BACKFILL_PAGES_PER_TICK { ticks := ticks + 1; }
      }
    }
  }

  /** What a run of ticks leaves on the target: every row of the bucket as it is on the
      source, everything else as it was. */
  lemma BucketIsCopied(tables: seq<Table>, before: map<RowKey, Row>, i: nat, k: Key)
    requires ValidTables(tables) && i < |tables| && k in tables[i].rows.keys
    ensures var after := Import(before, Everything(Copies(tables)));
      k in tables[i].rows.items && (tables[i].name, k) in after && after[(tables[i].name, k)] == tables[i].rows.items[k].1
  {
    var sts := Copies(tables);
    assert Walkable(sts[i]) && CopiesItself(tables[i]);
    forall j | i < j < |sts| ensures !Hits(sts[j], (tables[i].name, k)) { assert CopiesItself(tables[j]); }
    LastWriterWins(sts, 0, before, i, k);
  }

  lemma OtherRowsStay(tables: seq<Table>, before: map<RowKey, Row>, row: RowKey)
    requires ValidTables(tables) && forall i | 0 <= i < |tables| :: tables[i].name == row.0 ==> row.1 !in tables[i].rows.keys
    ensures var after := Import(before, Everything(Copies(tables))); (row in after <==> row in before) && (row in before ==> after[row] == before[row])
  {
    var sts := Copies(tables);
    forall j | 0 <= j < |sts| ensures !Hits(sts[j], row) { assert CopiesItself(tables[j]); }
    UnhitStays(sts, 0, before, row);
  }

  // ---- the entries of an index under construction ----

  type Text = ShardHash.Text

  /** Entries are keyed by the shard they lie on, the indexed tuple and the row's key. */
  type EntryKey = (Text, Text, Key)

  /** A listed shard: its base rows' keys in order, each row's indexed tuple, and the
      tenants of the rows that have one recorded. */
  datatype BaseShard = BaseShard(id: ShardId, keys: seq<Key>, keyJson: map<Key, Text>, tenants: map<Key, string>)

  datatype Rule = Rule(table: Text, indexName: Text, ring: seq<Text>)

  datatype Status = Building | Ready | Failed

  function Tenant(sh: BaseShard, k: Key): string { if k in sh.tenants then sh.tenants[k] else "" }

  function EntryOf(rule: Rule, sh: BaseShard, k: Key): (EntryKey, (ShardId, string))
    requires rule.ring != [] && k in sh.keyJson
  {
    ((ShardHash.IndexShardForKey(rule.table, rule.indexName, sh.keyJson[k], rule.ring), sh.keyJson[k], k), (sh.id, Tenant(sh, k)))
  }

  function EntriesOf(rule: Rule, sh: BaseShard): Stretch<EntryKey, (ShardId, string)>
    requires rule.ring != []
  {
    Stretch(sh.keys, map k | k in sh.keys && k in sh.keyJson :: EntryOf(rule, sh, k))
  }

  function EntryWalk(rule: Rule, shards: seq<BaseShard>): seq<Stretch<EntryKey, (ShardId, string)>>
    requires rule.ring != []
  {
    seq(|shards|, i requires 0 <= i < |shards| => EntriesOf(rule, shards[i]))
  }

  ghost predicate ValidShards(rule: Rule, shards: seq<BaseShard>) {
    && rule.ring != []
    && (forall i | 0 <= i < |shards| :: Ascending(shards[i].keys) && forall k | k in shards[i].keys :: k != "" && k in shards[i].keyJson)
    && (forall i, j | 0 <= i < j < |shards| :: shards[i].id != shards[j].id)
  }

  lemma EntriesAreWalkable(rule: Rule, shards: seq<BaseShard>)
    requires ValidShards(rule, shards)
    ensures AllWalkable(EntryWalk(rule, shards))
  {
  }

  ghost predicate NoEmptyKey(sh: BaseShard) { forall k | k in sh.keys :: k != "" }

  /** Every row of this shard has a recorded tenant. */
  ghost predicate ShardAttributed(sh: BaseShard) { forall k | k in sh.keys :: k in sh.tenants }

  ghost predicate Attributed(shards: seq<BaseShard>) { forall i | 0 <= i < |shards| :: ShardAttributed(shards[i]) }

  /** The rows up to the cursor have. */
  ghost predicate AttributedUpTo(sh: BaseShard, after: Key) { forall k | k in sh.keys && !Less(after, k) :: k in sh.tenants }

  ghost predicate PassedAttributed(shards: seq<BaseShard>, at: nat, after: Key) {
    (forall i | 0 <= i < |shards| && i < at :: ShardAttributed(shards[i])) && (at < |shards| ==> AttributedUpTo(shards[at], after))
  }

  predicate PageAttributed(shards: seq<BaseShard>, at: nat, after: Key)
    requires at < |shards|
  {
    forall k | k in PageAt(shards[at].keys, after, INDEX_BACKFILL_PAGE_SIZE) :: k in shards[at].tenants
  }

  ghost function PageItems(rule: Rule, shards: seq<BaseShard>, at: nat, after: Key): seq<(EntryKey, (ShardId, string))>
    requires ValidShards(rule, shards) && at < |shards|
  {
    var st := EntriesOf(rule, shards[at]);
    PageMembers(st, after, INDEX_BACKFILL_PAGE_SIZE);
    ItemsAt(st, PageAt(st.keys, after, INDEX_BACKFILL_PAGE_SIZE))
  }

  /** What one page does to the walk. */
  lemma PageTaken(rule: Rule, shards: seq<BaseShard>, at: nat, after: Key, before: map<EntryKey, (ShardId, string)>, index: map<EntryKey, (ShardId, string)>)
    requires ValidShards(rule, shards) && at < |shards| && PassedAttributed(shards, at, after) && PageAttributed(shards, at, after)
    requires index == Import(before, PageItems(rule, shards, at, after))
    ensures AllWalkable(EntryWalk(rule, shards))
    ensures var sts := EntryWalk(rule, shards); var next := NextPosition(sts, at, after, INDEX_BACKFILL_PAGE_SIZE);
      && next == NextOfKeys(shards[at].keys, at, after) && next.0 <= |shards| && PassedAttributed(shards, next.0, next.1)
      && Import(index, Rest(sts, next.0, next.1)) == Import(before, Rest(sts, at, after))
      && PagesLeft(sts, at, after, INDEX_BACKFILL_PAGE_SIZE) == 1 + PagesLeft(sts, next.0, next.1, INDEX_BACKFILL_PAGE_SIZE)
  {
    EntriesAreWalkable(rule, shards);
    var sts := EntryWalk(rule, shards);
    PageCounts(sts, at, after, INDEX_BACKFILL_PAGE_SIZE);
    NextByKeys(rule, shards, at, after);
    assert NoEmptyKey(shards[at]);
    if at + 1 < |shards| { assert NoEmptyKey(shards[at + 1]); }
    PassesOn(shards, at, after);
    PageSplitsRest(sts, at, after, INDEX_BACKFILL_PAGE_SIZE);
    var next := NextPosition(sts, at, after, INDEX_BACKFILL_PAGE_SIZE);
    ImportConcat(before, PageItems(rule, shards, at, after), Rest(sts, next.0, next.1));
  }

  /** Where the cursor goes, by the shard's keys alone. */
  function NextOfKeys(keys: seq<Key>, at: nat, after: Key): (nat, Key) {
    var page := PageAt(keys, after, INDEX_BACKFILL_PAGE_SIZE);
    if |page| < INDEX_BACKFILL_PAGE_SIZE then (at + 1, "") else (at, page[|page| - 1])
  }

  lemma NextByKeys(rule: Rule, shards: seq<BaseShard>, at: nat, after: Key)
    requires rule.ring != [] && at < |shards|
    ensures NextPosition(EntryWalk(rule, shards), at, after, INDEX_BACKFILL_PAGE_SIZE) == NextOfKeys(shards[at].keys, at, after)
  {
  }

  /** Writing the beginning of a page and then everything ahead is writing everything ahead. */
  lemma PageIsAhead(rule: Rule, shards: seq<BaseShard>, at: nat, after: Key, rows: nat, before: map<EntryKey, (ShardId, string)>)
    requires ValidShards(rule, shards) && at < |shards| && rows <= |PageAt(shards[at].keys, after, INDEX_BACKFILL_PAGE_SIZE)|
    ensures AllWalkable(EntryWalk(rule, shards))
    ensures var part := PageAt(shards[at].keys, after, INDEX_BACKFILL_PAGE_SIZE)[..rows]; var st := EntriesOf(rule, shards[at]);
      && (forall k | k in part :: k in st.items)
      && Import(Import(before, ItemsAt(st, part)), Rest(EntryWalk(rule, shards), at, after)) == Import(before, Rest(EntryWalk(rule, shards), at, after))
  {
    EntriesAreWalkable(rule, shards);
    var sts := EntryWalk(rule, shards);
    var st, page := EntriesOf(rule, shards[at]), PageAt(shards[at].keys, after, INDEX_BACKFILL_PAGE_SIZE);
    PageSplitsRest(sts, at, after, INDEX_BACKFILL_PAGE_SIZE);
    ItemsSplit(st, page, rows);
    assert Rest(sts, at, after)[..rows] == ItemsAt(st, page[..rows]);
    ImportAgain(before, Rest(sts, at, after), rows);
  }

  class IndexBackfill {
    var backfillShardIdx: nat
    var backfillAfterPk: Key
    var rowsCopied: nat
    var status: Status
    var index: map<EntryKey, (ShardId, string)>

    constructor (index: map<EntryKey, (ShardId, string)>)
      ensures this.index == index && backfillShardIdx == 0 && backfillAfterPk == "" && rowsCopied == 0 && status == Building
    {
      backfillShardIdx, backfillAfterPk, rowsCopied, status := 0, "", 0, Building;
      this.index := index;
    }

    ghost function Ahead(rule: Rule, shards: seq<BaseShard>): seq<(EntryKey, (ShardId, string))>
      requires ValidShards(rule, shards)
      reads this
    {
      EntriesAreWalkable(rule, shards);
      Rest(EntryWalk(rule, shards), backfillShardIdx, backfillAfterPk)
    }

    ghost function TicksAhead(rule: Rule, shards: seq<BaseShard>): nat
      requires ValidShards(rule, shards)
      reads this
    {
      1 + PagesLeft(EntryWalk(rule, shards), backfillShardIdx, backfillAfterPk, INDEX_BACKFILL_PAGE_SIZE)
    }

    /** Write the entries of one page, row by row; a row without a tenant gives up. */
    method WritePage(rule: Rule, sh: BaseShard, page: seq<Key>) returns (written: nat, attributed: bool)
      requires rule.ring != [] && forall k | k in page :: k in sh.keys && k in sh.keyJson
      modifies this`index
      ensures attributed <==> forall k | k in page :: k in sh.tenants
      ensures attributed ==> written == |page| && index == Import(old(index), ItemsAt(EntriesOf(rule, sh), page))
    {
      var st := EntriesOf(rule, sh);
      written := 0;
      while written < |page|
        invariant written <= |page|
        invariant forall k | k in page[..written] :: k in sh.tenants && k in st.items
        invariant index == Import(old(index), ItemsAt(st, page[..written]))
      {
        var pk := page[written];
        if pk !in sh.tenants { return written, false; }
        var entry := EntryOf(rule, sh, pk);
        index := index[entry.0 := entry.1];
        assert page[..written + 1] == page[..written] + [pk];
        ImportConcat(old(index), ItemsAt(st, page[..written]), [entry]);
        assert ItemsAt(st, page[..written + 1]) == ItemsAt(st, page[..written]) + [entry];
        assert Import(Import(old(index), ItemsAt(st, page[..written])), [entry]) == index;
        written := written + 1;
      }
      assert page[..|page|] == page;
      return written, true;
    }

    /** An empty or short page ends the shard. */
    method MoveCursor(page: seq<Key>)
      modifies this`backfillShardIdx, this`backfillAfterPk
      ensures (backfillShardIdx, backfillAfterPk) ==
        if |page| < INDEX_BACKFILL_PAGE_SIZE then (old(backfillShardIdx) + 1, "") else (old(backfillShardIdx), page[|page| - 1])
    {
      if |page| < INDEX_BACKFILL_PAGE_SIZE {
        backfillShardIdx, backfillAfterPk := backfillShardIdx + 1, "";
      } else {
        backfillAfterPk := page[|page| - 1];
      }
    }

    /** A page of the current shard. */
    method AdvancePage(rule: Rule, shards: seq<BaseShard>) returns (attributed: bool)
      requires ValidShards(rule, shards) && backfillShardIdx < |shards|
      modifies this`index, this`backfillShardIdx, this`backfillAfterPk, this`rowsCopied
      ensures PageAttributed(shards, old(backfillShardIdx), old(backfillAfterPk)) <==> attributed
      ensures attributed ==> (backfillShardIdx, backfillAfterPk) == NextOfKeys(shards[old(backfillShardIdx)].keys, old(backfillShardIdx), old(backfillAfterPk))
      ensures attributed ==> index == Import(old(index), PageItems(rule, shards, old(backfillShardIdx), old(backfillAfterPk)))
    {
      var sh := shards[backfillShardIdx];
      var page := PageAt(sh.keys, backfillAfterPk, INDEX_BACKFILL_PAGE_SIZE);
      PageMembers(EntriesOf(rule, sh), backfillAfterPk, INDEX_BACKFILL_PAGE_SIZE);
      ghost var items := PageItems(rule, shards, backfillShardIdx, backfillAfterPk);
      assert items == ItemsAt(EntriesOf(rule, sh), page);
      var written;
      written, attributed := WritePage(rule, sh, page);
      if attributed {
        assert index == Import(old(index), items);
        MoveCursor(page);
        rowsCopied := rowsCopied + written;
      }
    }

    /** One tick: a page of one shard, or the flip to ready when every shard was walked. */
    method Tick(rule: Rule, shards: seq<BaseShard>) returns (more: bool)
      requires ValidShards(rule, shards) && status == Building
      requires backfillShardIdx <= |shards| && PassedAttributed(shards, backfillShardIdx, backfillAfterPk)
      modifies this
      ensures more <==> status == Building
      ensures more ==> backfillShardIdx <= |shards| && PassedAttributed(shards, backfillShardIdx, backfillAfterPk)
      ensures more ==> Import(index, Ahead(rule, shards)) == Import(old(index), old(Ahead(rule, shards)))
      ensures more ==> TicksAhead(rule, shards) == old(TicksAhead(rule, shards)) - 1
      ensures status == Ready ==> Attributed(shards) && index == Import(old(index), old(Ahead(rule, shards)))
      ensures status == Ready ==> old(TicksAhead(rule, shards)) == 1
      ensures status == Failed ==> !Attributed(shards)
    {
      EntriesAreWalkable(rule, shards);
      if backfillShardIdx >= |shards| {
        status := Ready;
        return false;
      }
      ghost var before, ahead, at, after := index, Ahead(rule, shards), backfillShardIdx, backfillAfterPk;
      var attributed := AdvancePage(rule, shards);
      if !attributed {
        if Attributed(shards) { PageIsListed(rule, shards, at, after); }
        status := Failed;
        return false;
      }
      PageTaken(rule, shards, at, after, before, index);
      return true;
    }

    /** A tick cut short by a failed call after some rows: the page is repeated from the same
        cursor, and written plus ahead stay what they were. A row without a tenant among
        them gives up all the same. */
    method InterruptedTick(rule: Rule, shards: seq<BaseShard>, rows: nat) returns (more: bool)
      requires ValidShards(rule, shards) && status == Building && backfillShardIdx < |shards|
      modifies this`index, this`status
      ensures more <==> status == Building
      ensures more ==> Import(index, Ahead(rule, shards)) == Import(old(index), Ahead(rule, shards))
      ensures !more ==> status == Failed && !Attributed(shards)
    {
      var sh := shards[backfillShardIdx];
      var page := PageAt(sh.keys, backfillAfterPk, INDEX_BACKFILL_PAGE_SIZE);
      var reached := if rows <= |page| then rows else |page|;
      PageMembers(EntriesOf(rule, sh), backfillAfterPk, INDEX_BACKFILL_PAGE_SIZE);
      assert forall k | k in page[..reached] :: k in page;
      PageIsAhead(rule, shards, backfillShardIdx, backfillAfterPk, reached, index);
      var _, attributed := WritePage(rule, sh, page[..reached]);
      if !attributed {
        assert !ShardAttributed(sh);
        status := Failed;
      }
      return attributed;
    }

    /** So whatever ticks are cut short (`cuts` says after how many rows; more than a page
        has is a whole tick), the index becomes ready exactly when every row of every listed
        shard is attributed, and then it is what one whole pass writes. */
    method Run(rule: Rule, shards: seq<BaseShard>, cuts: seq<nat>) returns (ticks: nat)
      requires ValidShards(rule, shards) && status == Building && backfillShardIdx == 0 && backfillAfterPk == ""
      modifies this
      ensures status == Ready <==> Attributed(shards)
      ensures status == Failed <==> !Attributed(shards)
      ensures status == Ready ==> index == Import(old(index), old(Ahead(rule, shards))) && ticks == old(TicksAhead(rule, shards))
    {
      var more, n := true, 0;
      ticks := 0;
      assert PassedAttributed(shards, 0, "") by { NothingPassed(shards); }
      while more
        invariant n <= |cuts|
        invariant more <==> status == Building
        invariant more ==> backfillShardIdx <= |shards| && PassedAttributed(shards, backfillShardIdx, backfillAfterPk)
        invariant more ==> Import(index, Ahead(rule, shards)) == Import(old(index), old(Ahead(rule, shards)))
        invariant more ==> ticks + TicksAhead(rule, shards) == old(TicksAhead(rule, shards))
        invariant status == Ready ==> Attributed(shards) && index == Import(old(index), old(Ahead(rule, shards)))
        invariant status == Ready ==> ticks == old(TicksAhead(rule, shards))
        invariant status == Failed ==> !Attributed(shards)
        decreases more, |cuts| - n, if more then TicksAhead(rule, shards) else 0
      {
        var cut := n < |cuts| && cuts[n] <= INDEX_BACKFILL_PAGE_SIZE && backfillShardIdx < |shards|;
        if cut {
          more := InterruptedTick(rule, shards, cuts[n]);
        } else {
          more := Tick(rule, shards);
          ticks := ticks + 1;
        }
        if n < |cuts| { n := n + 1; }
      }
    }
  }

  lemma PageMembers<K, V>(st: Stretch<K, V>, after: Key, page: nat)
    requires Walkable(st)
    ensures forall k | k in PageAt(st.keys, after, page) :: k in st.keys && k in st.items
  {
    forall k | k in PageAt(st.keys, after, page) ensures k in st.keys && k in st.items {
      assert k in Beyond(st.keys, after);
      BeyondMembers(st.keys, after, k);
    }
  }

  lemma PageIsListed(rule: Rule, shards: seq<BaseShard>, at: nat, after: Key)
    requires ValidShards(rule, shards) && at < |shards| && Attributed(shards)
    ensures PageAttributed(shards, at, after)
  {
    PageMembers(EntriesOf(rule, shards[at]), after, INDEX_BACKFILL_PAGE_SIZE);
  }

  lemma NothingPassed(shards: seq<BaseShard>)
    requires forall i | 0 <= i < |shards| :: forall k | k in shards[i].keys :: k != ""
    ensures PassedAttributed(shards, 0, "")
  {
    if shards != [] { NothingBefore(shards[0]); }
  }

  /** An attributed page moves the cursor past attributed rows only. */
  lemma PassesOn(shards: seq<BaseShard>, at: nat, after: Key)
    requires at < |shards| && Ascending(shards[at].keys) && PassedAttributed(shards, at, after) && PageAttributed(shards, at, after)
    requires at + 1 < |shards| ==> NoEmptyKey(shards[at + 1])
    ensures var next := NextOfKeys(shards[at].keys, at, after); PassedAttributed(shards, next.0, next.1)
  {
    ShardPasses(shards[at], after);
    if at + 1 < |shards| { NothingBefore(shards[at + 1]); }
  }

  lemma NothingBefore(sh: BaseShard)
    requires NoEmptyKey(sh)
    ensures AttributedUpTo(sh, "")
  {
    forall k | k in sh.keys ensures Less("", k) { EmptyIsLeast(k); }
  }

  lemma ShardPasses(sh: BaseShard, after: Key)
    requires Ascending(sh.keys) && AttributedUpTo(sh, after)
    requires forall k | k in PageAt(sh.keys, after, INDEX_BACKFILL_PAGE_SIZE) :: k in sh.tenants
    ensures var page := PageAt(sh.keys, after, INDEX_BACKFILL_PAGE_SIZE);
      if |page| < INDEX_BACKFILL_PAGE_SIZE then ShardAttributed(sh) else AttributedUpTo(sh, page[|page| - 1])
  {
    var page := PageAt(sh.keys, after, INDEX_BACKFILL_PAGE_SIZE);
    forall k | k in sh.keys && (|page| < INDEX_BACKFILL_PAGE_SIZE || !Less(page[|page| - 1], k)) ensures k in sh.tenants {
      if Less(after, k) { PageHolds(sh.keys, after, k); }
    }
  }

  /** A key beyond the old cursor and not beyond the new one is on the page. */
  lemma PageHolds(keys: seq<Key>, after: Key, k: Key)
    requires Ascending(keys) && k in keys && Less(after, k)
    ensures var page := PageAt(keys, after, INDEX_BACKFILL_PAGE_SIZE);
      |page| < INDEX_BACKFILL_PAGE_SIZE || !Less(page[INDEX_BACKFILL_PAGE_SIZE - 1], k) ==> k in page
  {
    var beyond, page := Beyond(keys, after), PageAt(keys, after, INDEX_BACKFILL_PAGE_SIZE);
    BeyondMembers(keys, after, k);
    if |page| >= INDEX_BACKFILL_PAGE_SIZE {
      BeyondAdvance(keys, after, INDEX_BACKFILL_PAGE_SIZE);
      BeyondMembers(keys, page[INDEX_BACKFILL_PAGE_SIZE - 1], k);
      assert beyond == page + beyond[INDEX_BACKFILL_PAGE_SIZE..];
    }
  }

  // ---- what a ready index holds ----

  /** The same tuple under the same key on another shard. */
  predicate SameEntry(a: BaseShard, b: BaseShard, k: Key) {
    k in a.keyJson && k in b.keyJson && k in b.keys && a.keyJson[k] == b.keyJson[k]
  }

  lemma HitsIsSameEntry(rule: Rule, shards: seq<BaseShard>, i: nat, j: nat, k: Key)
    requires ValidShards(rule, shards) && i < |shards| && j < |shards| && k in shards[i].keys
    ensures Hits(EntriesOf(rule, shards[j]), EntryOf(rule, shards[i], k).0) <==> SameEntry(shards[i], shards[j], k)
  {
    var st, key := EntriesOf(rule, shards[j]), EntryOf(rule, shards[i], k).0;
    if SameEntry(shards[i], shards[j], k) { assert k in st.keys && st.items[k].0 == key; }
  }

  /** A later shard with the same tuple under the same key, or none. */
  lemma {:induction false} LastOf(rule: Rule, shards: seq<BaseShard>, i: nat, k: Key) returns (last: nat)
    requires ValidShards(rule, shards) && i < |shards| && k in shards[i].keys
    ensures i <= last < |shards| && k in shards[last].keys && EntryOf(rule, shards[last], k).0 == EntryOf(rule, shards[i], k).0
    ensures forall j | last < j < |shards| :: !SameEntry(shards[i], shards[j], k)
    ensures last == i <==> forall j | i < j < |shards| :: !SameEntry(shards[i], shards[j], k)
  {
    last := |shards| - 1;
    while last > i && !SameEntry(shards[i], shards[last], k)
      invariant i <= last < |shards| && forall j | last < j < |shards| :: !SameEntry(shards[i], shards[j], k)
    {
      last := last - 1;
    }
  }

  /** A ready index holds an entry for every row of every listed shard at its place in the
      ring; the entry names that row's own shard and tenant if and only if no shard listed
      later has the same tuple under the same key. */
  lemma ReadyIndexEntry(rule: Rule, shards: seq<BaseShard>, before: map<EntryKey, (ShardId, string)>, i: nat, k: Key)
    requires ValidShards(rule, shards) && i < |shards| && k in shards[i].keys
    ensures AllWalkable(EntryWalk(rule, shards))
    ensures var after, entry := Import(before, Everything(EntryWalk(rule, shards))), EntryOf(rule, shards[i], k);
      && entry.0 in after
      && (after[entry.0] == entry.1 <==> forall j | i < j < |shards| :: !SameEntry(shards[i], shards[j], k))
  {
    EntriesAreWalkable(rule, shards);
    var sts := EntryWalk(rule, shards);
    var last := LastOf(rule, shards, i, k);
    forall j | last < j < |sts| ensures !Hits(sts[j], EntryOf(rule, shards[i], k).0) { HitsIsSameEntry(rule, shards, i, j, k); }
    EntriesInjective(rule, shards[last]);
    assert Walkable(sts[last]);
    LastWriterWins(sts, 0, before, last, k);
    assert sts[last].items[k] == EntryOf(rule, shards[last], k);
  }

  lemma EntriesInjective(rule: Rule, sh: BaseShard)
    requires rule.ring != []
    ensures Injective(EntriesOf(rule, sh))
  {
  }
}
