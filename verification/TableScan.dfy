/** The cursor-paginated table scan: one page per shard, a k-way merge that cuts at
    the page limit, and the two rules that move each shard's cursor. */
module TableScan {
  import opened Basics
  import opened Collation

  type Key = string
  type ShardId = string
  type Row = map<string, string>

  /** One row of the merged list, tagged with the shard it came from. */
  datatype Entry = Entry(shard: ShardId, key: Key, row: Row)

  datatype ShardRow = ShardRow(key: Key, row: Row)

  /** What one shard answers: its rows in key order, how many owner rows its query
      consumed (the row count when a shard does not say), and the last of them. */
  datatype Page = Page(shard: ShardId, rows: seq<ShardRow>, ownerRowsScanned: Option<nat>, lastOwnerKeyScanned: Option<Key>) {
    function Scanned(): nat { if ownerRowsScanned.Some? then ownerRowsScanned.value else |rows| }
  }

  // ---- the order of the merge ----

  /** JavaScript compares shard names by code unit; on the names in use that is
      code-point order. */
  predicate ShardBefore(a: ShardId, b: ShardId) { CompareScalars(a, b) < 0 }

  predicate Before(a: Entry, b: Entry) {
    Less(a.key, b.key) || (a.key == b.key && ShardBefore(a.shard, b.shard))
  }

  lemma BeforeIsStrictOrder(a: Entry, b: Entry, c: Entry)
    ensures !Before(a, a)
    ensures Before(a, b) ==> !Before(b, a)
    ensures Before(a, b) && Before(b, c) ==> Before(a, c)
    ensures !Before(a, b) && !Before(b, c) ==> !Before(a, c)
    ensures !Before(a, b) && !Before(b, a) ==> a.key == b.key && a.shard == b.shard
  {
    BinaryTotalOrder(a.key, b.key, c.key);
    BinaryTotalOrder(b.key, a.key, c.key);
    BinaryTotalOrder(c.key, b.key, a.key);
    BinaryTotalOrder(a.key, c.key, b.key);
    CompareSeqZero(Units(a.shard), Units(a.shard));
    CompareSeqAntisymmetric(Units(a.shard), Units(b.shard));
    CompareSeqAntisymmetric(Units(b.shard), Units(c.shard));
    CompareSeqAntisymmetric(Units(a.shard), Units(c.shard));
    if CompareScalars(a.shard, b.shard) <= 0 && CompareScalars(b.shard, c.shard) <= 0 {
      CompareSeqTransitive(Units(a.shard), Units(b.shard), Units(c.shard));
    }
    if CompareScalars(c.shard, b.shard) <= 0 && CompareScalars(b.shard, a.shard) <= 0 {
      CompareSeqTransitive(Units(c.shard), Units(b.shard), Units(a.shard));
    }
    ShardEquality(a.shard, b.shard);
  }

  lemma NotBeforeTransitive(a: Entry, b: Entry, c: Entry)
    requires !Before(a, b) && !Before(b, c)
    ensures !Before(a, c)
  {
    BeforeIsStrictOrder(a, b, c);
  }

  lemma BeforeIsAsymmetric(a: Entry, b: Entry)
    requires Before(a, b)
    ensures !Before(b, a)
  {
    BeforeIsStrictOrder(a, b, a);
  }

  lemma ShardEquality(a: ShardId, b: ShardId)
    ensures CompareScalars(a, b) == 0 <==> a == b
  {
    BinaryAgreesWithScalars(a, b);
    BinaryZeroIffEqual(a, b);
  }

  ghost predicate Sorted(es: seq<Entry>) {
    forall i, j | 0 <= i < j < |es| :: !Before(es[j], es[i])
  }

  /** Array.prototype.sort: the stable sort by that order. */
  function Sort(es: seq<Entry>): seq<Entry>
  {
    if es == [] then [] else Insert(es[0], Sort(es[1..]))
  }

  function Insert(e: Entry, es: seq<Entry>): seq<Entry>
  {
    if es == [] || !Before(es[0], e) then [e] + es else [es[0]] + Insert(e, es[1..])
  }

  lemma {:induction false} InsertPermutes(e: Entry, es: seq<Entry>)
    ensures multiset(Insert(e, es)) == multiset([e]) + multiset(es)
  {
    if es != [] && Before(es[0], e) {
      InsertPermutes(e, es[1..]);
      assert es == [es[0]] + es[1..];
    }
  }

  lemma SortedCons(e: Entry, es: seq<Entry>)
    requires Sorted(es) && forall x | x in es :: !Before(x, e)
    ensures Sorted([e] + es)
  {
  }

  lemma {:induction false} InsertSorted(e: Entry, es: seq<Entry>)
    requires Sorted(es)
    ensures Sorted(Insert(e, es))
  {
    if es == [] {
    } else if !Before(es[0], e) {
      forall x | x in es ensures !Before(x, e) {
        var j :| 0 <= j < |es| && es[j] == x;
        if j > 0 { NotBeforeTransitive(x, es[0], e); }
      }
      SortedCons(e, es);
    } else {
      InsertSorted(e, es[1..]);
      InsertPermutes(e, es[1..]);
      var r := Insert(e, es[1..]);
      forall x | x in r ensures !Before(x, es[0]) {
        assert x in multiset(r);
        BeforeIsAsymmetric(es[0], e);
      }
      SortedCons(es[0], r);
    }
  }

  lemma {:induction false} SortIsSortedPermutation(es: seq<Entry>)
    ensures Sorted(Sort(es))
    ensures multiset(Sort(es)) == multiset(es)
  {
    if es != [] {
      SortIsSortedPermutation(es[1..]);
      InsertSorted(es[0], Sort(es[1..]));
      InsertPermutes(es[0], Sort(es[1..]));
      assert es == [es[0]] + es[1..];
    }
  }

  // ---- one shard's share of a list ----

  function Of(s: ShardId, es: seq<Entry>): seq<Entry>
  {
    if es == [] then []
    else if es[0].shard == s then [es[0]] + Of(s, es[1..])
    else Of(s, es[1..])
  }

  lemma {:induction false} OfConcat(s: ShardId, xs: seq<Entry>, ys: seq<Entry>)
    ensures Of(s, xs + ys) == Of(s, xs) + Of(s, ys)
  {
    if xs == [] {
      assert xs + ys == ys;
    } else {
      assert (xs + ys)[1..] == xs[1..] + ys;
      OfConcat(s, xs[1..], ys);
    }
  }

  lemma {:induction false} OfMembers(s: ShardId, es: seq<Entry>, e: Entry)
    ensures e in Of(s, es) <==> e in es && e.shard == s
    ensures |Of(s, es)| <= |es|
  {
    if es != [] {
      OfMembers(s, es[1..], e);
      assert e in es <==> e == es[0] || e in es[1..];
    }
  }

  lemma {:induction false} OfInsert(s: ShardId, e: Entry, es: seq<Entry>)
    requires Sorted(es)
    ensures Of(s, Insert(e, es)) == if e.shard == s then Insert(e, Of(s, es)) else Of(s, es)
  {
    if es == [] {
    } else if !Before(es[0], e) {
      if e.shard == s && Of(s, es) != [] {
        var f := Of(s, es)[0];
        OfMembers(s, es, f);
        var i :| 0 <= i < |es| && es[i] == f;
        BeforeIsStrictOrder(f, es[0], e);
      }
    } else {
      OfInsert(s, e, es[1..]);
      var r := Insert(e, es[1..]);
      assert ([es[0]] + r)[1..] == r;
      if es[0].shard == s && e.shard == s {
        assert ([es[0]] + Of(s, es[1..]))[1..] == Of(s, es[1..]);
      }
    }
  }

  /** Sorting the merged list sorts each shard's share of it. */
  lemma {:induction false} OfSort(s: ShardId, es: seq<Entry>)
    ensures Of(s, Sort(es)) == Sort(Of(s, es))
  {
    if es != [] {
      OfSort(s, es[1..]);
      SortIsSortedPermutation(es[1..]);
      OfInsert(s, es[0], Sort(es[1..]));
      if es[0].shard == s {
        assert Of(s, es) == [es[0]] + Of(s, es[1..]);
        assert ([es[0]] + Of(s, es[1..]))[1..] == Of(s, es[1..]);
      }
    }
  }

  lemma {:induction false} SortOfSorted(es: seq<Entry>)
    requires Sorted(es)
    ensures Sort(es) == es
  {
    if es != [] {
      SortOfSorted(es[1..]);
    }
  }

  lemma {:induction false} OfPrefix(s: ShardId, es: seq<Entry>, n: nat)
    requires n <= |es|
    ensures |Of(s, es[..n])| <= |Of(s, es)| && Of(s, es[..n]) == Of(s, es)[..|Of(s, es[..n])|]
  {
    assert es == es[..n] + es[n..];
    OfConcat(s, es[..n], es[n..]);
  }

  // ---- what a shard holds ----

  const TENANT_SCAN_PAGE_SIZE := 100

  /** A shard: the tenant's owner keys for the table in key order, and the base rows,
      some of which may be missing. */
  datatype ShardStore = ShardStore(id: ShardId, owners: seq<Key>, rows: map<Key, Row>)

  ghost predicate ValidStore(sh: ShardStore) {
    (forall i, j | 0 <= i < j < |sh.owners| :: Less(sh.owners[i], sh.owners[j]))
    && (forall k | k in sh.owners :: k != "")
  }

  /** The owner query's predicate: keys after the cursor, in key order. */
  function Beyond(owners: seq<Key>, after: Key): seq<Key>
  {
    if owners == [] then []
    else if Less(after, owners[0]) then [owners[0]] + Beyond(owners[1..], after)
    else Beyond(owners[1..], after)
  }

  /** One lookup per owner key; a key whose base row is gone is left out. */
  function Resolve(rows: map<Key, Row>, keys: seq<Key>): seq<ShardRow>
  {
    if keys == [] then []
    else if keys[0] in rows then [ShardRow(keys[0], rows[keys[0]])] + Resolve(rows, keys[1..])
    else Resolve(rows, keys[1..])
  }

  function Min(a: int, b: int): int { if a < b then a else b }
  function Max(a: int, b: int): int { if a > b then a else b }

  function TenantScanPage(sh: ShardStore, after: Key, limit: nat): Page
  {
    var cap := Min(TENANT_SCAN_PAGE_SIZE, Max(1, limit));
    var beyond := Beyond(sh.owners, after);
    var owners := beyond[..Min(|beyond|, cap)];
    Page(sh.id, Resolve(sh.rows, owners), Some(|owners|), if owners == [] then None else Some(owners[|owners| - 1]))
  }

  /** The rows a scan still owes for one shard whose cursor is `after`. */
  function LiveBeyond(sh: ShardStore, after: Key): seq<ShardRow> { Resolve(sh.rows, Beyond(sh.owners, after)) }

  // ---- the merge ----

  function Tag(s: ShardId, rows: seq<ShardRow>): (es: seq<Entry>)
    ensures |es| == |rows|
  {
    seq(|rows|, i requires 0 <= i < |rows| => Entry(s, rows[i].key, rows[i].row))
  }

  function AllEntries(pages: seq<Page>): seq<Entry>
  {
    if pages == [] then [] else AllEntries(pages[..|pages| - 1]) + Tag(pages[|pages| - 1].shard, pages[|pages| - 1].rows)
  }

  function Truncated(pages: seq<Page>, overallLimit: nat): seq<Entry>
  {
    var sorted := Sort(AllEntries(pages));
    sorted[..Min(|sorted|, overallLimit)]
  }

  function CursorOf(cursors: map<ShardId, Key>, s: ShardId): Key { if s in cursors then cursors[s] else "" }

  function Later(a: Key, b: Key): Key { if Less(a, b) then b else a }

  /** Rule (b): the furthest key among the delivered rows. */
  function Furthest(current: Key, es: seq<Entry>): Key
  {
    if es == [] then current else Later(Furthest(current, es[..|es| - 1]), es[|es| - 1].key)
  }

  /** Both rules for one shard, given the cursor it had and the rows delivered. */
  function NextCursor(page: Page, perShardLimit: nat, prior: Key, delivered: seq<Entry>): Key
  {
    ScannedCursor(page, perShardLimit, Furthest(prior, delivered), |delivered|)
  }

  /** Rule (a) on top of a cursor `bound` set by rule (b). */
  function ScannedCursor(page: Page, perShardLimit: nat, bound: Key, delivered: nat): Key
  {
    if page.Scanned() < perShardLimit || page.lastOwnerKeyScanned.None? then bound
    else if page.rows != [] && delivered < |page.rows| then bound
    else Later(bound, page.lastOwnerKeyScanned.value)
  }

  predicate MoreExpected(pages: seq<Page>, overallLimit: nat, perShardLimit: nat)
  {
    |AllEntries(pages)| > |Truncated(pages, overallLimit)|
    || exists i :: 0 <= i < |pages| && pages[i].Scanned() >= perShardLimit
  }

  predicate DistinctShards(pages: seq<Page>) {
    forall i, j | 0 <= i < j < |pages| :: pages[i].shard != pages[j].shard
  }

  function IdsOf(pages: seq<Page>): (ids: set<ShardId>)
    ensures forall i | 0 <= i < |pages| :: pages[i].shard in ids
    ensures forall s | s in ids :: exists i :: 0 <= i < |pages| && pages[i].shard == s
  {
    set i | 0 <= i < |pages| :: pages[i].shard
  }

  function PageOf(pages: seq<Page>, s: ShardId): (p: Page)
    requires s in IdsOf(pages)
    ensures p in pages && p.shard == s
  {
    if pages[0].shard == s then pages[0] else PageOf(pages[1..], s)
  }

  /** Every shard the call touched keeps a cursor; every other entry is carried over. */
  function NextCursors(pages: seq<Page>, overallLimit: nat, perShardLimit: nat, prior: map<ShardId, Key>): (next: map<ShardId, Key>)
    ensures next.Keys == prior.Keys + IdsOf(pages)
  {
    var truncated := Truncated(pages, overallLimit);
    map s | s in prior.Keys + IdsOf(pages) ::
      if s in IdsOf(pages) then NextCursor(PageOf(pages, s), perShardLimit, CursorOf(prior, s), Of(s, truncated)) else prior[s]
  }

  // ---- one shard, one page ----

  lemma {:induction false} BeyondMembers(owners: seq<Key>, after: Key, k: Key)
    ensures k in Beyond(owners, after) <==> k in owners && Less(after, k)
  {
    if owners != [] {
      BeyondMembers(owners[1..], after, k);
      assert k in owners <==> k == owners[0] || k in owners[1..];
    }
  }

  ghost predicate Ascending(keys: seq<Key>) {
    forall i, j | 0 <= i < j < |keys| :: Less(keys[i], keys[j])
  }

  ghost predicate AscendingRows(rows: seq<ShardRow>) {
    forall i, j | 0 <= i < j < |rows| :: Less(rows[i].key, rows[j].key)
  }

  lemma {:induction false} BeyondAll(owners: seq<Key>, after: Key)
    requires forall k | k in owners :: Less(after, k)
    ensures Beyond(owners, after) == owners
  {
    if owners != [] { BeyondAll(owners[1..], after); }
  }

  lemma {:induction false} BeyondIsSuffix(owners: seq<Key>, after: Key)
    requires Ascending(owners)
    ensures |Beyond(owners, after)| <= |owners|
    ensures Beyond(owners, after) == owners[|owners| - |Beyond(owners, after)|..]
  {
    if owners != [] {
      if Less(after, owners[0]) {
        forall k | k in owners ensures Less(after, k) { BinaryTotalOrder(after, owners[0], k); }
        BeyondAll(owners, after);
      } else {
        BeyondIsSuffix(owners[1..], after);
      }
    }
  }

  lemma BeyondAscending(owners: seq<Key>, after: Key)
    requires Ascending(owners)
    ensures Ascending(Beyond(owners, after))
  {
    BeyondIsSuffix(owners, after);
  }

  /** Moving the cursor to the k-th remaining key leaves exactly the keys after it. */
  lemma {:induction false} BeyondAdvance(owners: seq<Key>, after: Key, k: nat)
    requires Ascending(owners) && 1 <= k <= |Beyond(owners, after)|
    ensures Beyond(owners, Beyond(owners, after)[k - 1]) == Beyond(owners, after)[k..]
  {
    var beyond := Beyond(owners, after);
    BeyondIsSuffix(owners, after);
    var n := |owners| - |beyond|;
    var at := n + k - 1;
    assert owners == owners[..at + 1] + owners[at + 1..];
    BeyondConcat(owners[..at + 1], owners[at + 1..], owners[at]);
    BeyondNone(owners[..at + 1], owners[at]);
    BeyondAll(owners[at + 1..], owners[at]);
  }

  lemma {:induction false} BeyondConcat(xs: seq<Key>, ys: seq<Key>, after: Key)
    ensures Beyond(xs + ys, after) == Beyond(xs, after) + Beyond(ys, after)
  {
    if xs == [] {
      assert xs + ys == ys;
    } else {
      assert (xs + ys)[1..] == xs[1..] + ys;
      BeyondConcat(xs[1..], ys, after);
    }
  }

  lemma {:induction false} BeyondNone(keys: seq<Key>, after: Key)
    requires forall i | 0 <= i < |keys| :: Less(keys[i], after) || keys[i] == after
    ensures Beyond(keys, after) == []
  {
    if keys != [] {
      BinaryTotalOrder(keys[0], after, after);
      BinaryTotalOrder(after, keys[0], after);
      BeyondNone(keys[1..], after);
    }
  }

  lemma {:induction false} ResolveConcat(rows: map<Key, Row>, xs: seq<Key>, ys: seq<Key>)
    ensures Resolve(rows, xs + ys) == Resolve(rows, xs) + Resolve(rows, ys)
  {
    if xs == [] {
      assert xs + ys == ys;
    } else {
      assert (xs + ys)[1..] == xs[1..] + ys;
      ResolveConcat(rows, xs[1..], ys);
    }
  }

  lemma {:induction false} ResolveMembers(rows: map<Key, Row>, keys: seq<Key>, r: ShardRow)
    ensures r in Resolve(rows, keys) <==> r.key in keys && r.key in rows && r.row == rows[r.key]
  {
    if keys != [] {
      ResolveMembers(rows, keys[1..], r);
      assert r.key in keys <==> r.key == keys[0] || r.key in keys[1..];
    }
  }

  lemma {:induction false} ResolveAscending(rows: map<Key, Row>, keys: seq<Key>)
    requires Ascending(keys)
    ensures AscendingRows(Resolve(rows, keys))
  {
    if keys != [] {
      ResolveAscending(rows, keys[1..]);
      var rest := Resolve(rows, keys[1..]);
      forall j | 0 <= j < |rest| ensures Less(keys[0], rest[j].key) { ResolveMembers(rows, keys[1..], rest[j]); }
    }
  }

  /** The d-th resolved row is some scanned key, and the rows up to it come from the
      keys up to that one. */
  lemma {:induction false} ResolveSplit(rows: map<Key, Row>, keys: seq<Key>, d: nat) returns (k: nat)
    requires 1 <= d <= |Resolve(rows, keys)|
    ensures 1 <= k <= |keys| && keys[k - 1] == Resolve(rows, keys)[d - 1].key
    ensures Resolve(rows, keys[..k]) == Resolve(rows, keys)[..d]
    ensures Resolve(rows, keys[k..]) == Resolve(rows, keys)[d..]
  {
    var rest := Resolve(rows, keys[1..]);
    if keys[0] in rows && d == 1 {
      k := 1;
      assert keys[..1] == [keys[0]] && keys[..1][1..] == [];
    } else {
      var d' := if keys[0] in rows then d - 1 else d;
      var k' := ResolveSplit(rows, keys[1..], d');
      k := k' + 1;
      assert keys[..k] == [keys[0]] + keys[1..][..k'];
      assert keys[..k][1..] == keys[1..][..k'];
      assert keys[k..] == keys[1..][k'..];
    }
  }

  lemma {:induction false} FurthestIsLast(s: ShardId, after: Key, rows: seq<ShardRow>, d: nat)
    requires d <= |rows|
    requires AscendingRows(rows)
    requires forall i | 0 <= i < |rows| :: Less(after, rows[i].key)
    ensures Furthest(after, Tag(s, rows)[..d]) == if d == 0 then after else rows[d - 1].key
  {
    if d > 0 {
      FurthestIsLast(s, after, rows, d - 1);
      var es := Tag(s, rows)[..d];
      assert es[..|es| - 1] == Tag(s, rows)[..d - 1];
    }
  }

  /** A cursor on the d-th row of the page owes exactly the rows after it. */
  lemma RowCursorAccounts(sh: ShardStore, after: Key, n: nat, d: nat)
    requires ValidStore(sh) && n <= |Beyond(sh.owners, after)|
    requires 1 <= d <= |Resolve(sh.rows, Beyond(sh.owners, after)[..n])|
    ensures var beyond := Beyond(sh.owners, after);
      var rows := Resolve(sh.rows, beyond[..n]);
      && rows[..d] + LiveBeyond(sh, rows[d - 1].key) == LiveBeyond(sh, after)
      && |Beyond(sh.owners, rows[d - 1].key)| < |beyond|
      && rows[d - 1].key in beyond[..n]
  {
    var beyond := Beyond(sh.owners, after);
    var k := ResolveSplit(sh.rows, beyond[..n], d);
    BeyondAdvance(sh.owners, after, k);
    assert beyond == beyond[..k] + beyond[k..];
    assert beyond[..n][..k] == beyond[..k];
    ResolveConcat(sh.rows, beyond[..k], beyond[k..]);
  }

  /** A cursor on the last scanned owner key owes exactly what the page did not fetch. */
  lemma OwnerCursorAccounts(sh: ShardStore, after: Key, n: nat)
    requires ValidStore(sh) && 1 <= n <= |Beyond(sh.owners, after)|
    ensures var beyond := Beyond(sh.owners, after);
      && Resolve(sh.rows, beyond[..n]) + LiveBeyond(sh, beyond[n - 1]) == LiveBeyond(sh, after)
      && |Beyond(sh.owners, beyond[n - 1])| < |beyond|
      && Less(after, beyond[n - 1])
  {
    var beyond := Beyond(sh.owners, after);
    BeyondAdvance(sh.owners, after, n);
    BeyondMembers(sh.owners, after, beyond[n - 1]);
    assert beyond == beyond[..n] + beyond[n..];
    ResolveConcat(sh.rows, beyond[..n], beyond[n..]);
  }

  /** The value of rule (b) on a prefix of one page. */
  lemma PageBound(sh: ShardStore, after: Key, limit: nat, d: nat)
    requires ValidStore(sh) && d <= |TenantScanPage(sh, after, limit).rows|
    ensures var rows := TenantScanPage(sh, after, limit).rows;
      && Furthest(after, Tag(sh.id, rows)[..d]) == (if d == 0 then after else rows[d - 1].key)
      && AscendingRows(rows)
  {
    var p := TenantScanPage(sh, after, limit);
    var beyond := Beyond(sh.owners, after);
    var owners := beyond[..Min(|beyond|, Min(TENANT_SCAN_PAGE_SIZE, Max(1, limit)))];
    BeyondIsSuffix(sh.owners, after);
    ResolveAscending(sh.rows, owners);
    forall i | 0 <= i < |p.rows| ensures Less(after, p.rows[i].key) {
      ResolveMembers(sh.rows, owners, p.rows[i]);
      BeyondMembers(sh.owners, after, p.rows[i].key);
    }
    FurthestIsLast(sh.id, after, p.rows, d);
  }

  /** One shard's part of one page: whatever number `d` of its rows survives the cut,
      those rows followed by what the new cursor still owes are what the old cursor
      owed; and the cursor moves whenever the scan needs it to. */
  lemma PageAccounts(sh: ShardStore, after: Key, limit: nat, d: nat)
    requires ValidStore(sh) && 1 <= limit <= TENANT_SCAN_PAGE_SIZE
    requires d <= |TenantScanPage(sh, after, limit).rows|
    ensures var p := TenantScanPage(sh, after, limit);
      var next := NextCursor(p, limit, after, Tag(sh.id, p.rows)[..d]);
      && p.rows[..d] + LiveBeyond(sh, next) == LiveBeyond(sh, after)
      && |Beyond(sh.owners, next)| <= |Beyond(sh.owners, after)|
      && (d > 0 || (p.rows == [] && p.Scanned() >= limit) ==> |Beyond(sh.owners, next)| < |Beyond(sh.owners, after)|)
      && (p.Scanned() < limit ==> p.rows == LiveBeyond(sh, after))
  {
    var p := TenantScanPage(sh, after, limit);
    var n := Min(|Beyond(sh.owners, after)|, limit);
    PageShape(sh, after, limit);
    if n == limit && (p.rows == [] || d == |p.rows|) {
      SaturatedCursor(sh, after, limit, d);
      OwnerCursorAccounts(sh, after, n);
      assert p.rows[..d] == p.rows;
    } else {
      PageBound(sh, after, limit, d);
      if d > 0 { RowCursorAccounts(sh, after, n, d); }
    }
  }

  /** A full page delivered to its end moves the cursor to the last owner it scanned. */
  lemma SaturatedCursor(sh: ShardStore, after: Key, limit: nat, d: nat)
    requires ValidStore(sh) && 1 <= limit <= TENANT_SCAN_PAGE_SIZE && limit <= |Beyond(sh.owners, after)|
    requires var rows := TenantScanPage(sh, after, limit).rows; d == |rows|
    ensures var p := TenantScanPage(sh, after, limit);
      NextCursor(p, limit, after, Tag(sh.id, p.rows)[..d]) == Beyond(sh.owners, after)[limit - 1]
  {
    var p := TenantScanPage(sh, after, limit);
    PageShape(sh, after, limit);
    PageBound(sh, after, limit, d);
    if d > 0 { RowCursorAccounts(sh, after, limit, d); }
    BoundNotBeyond(sh, after, limit, if d == 0 then after else p.rows[d - 1].key);
  }

  lemma PageShape(sh: ShardStore, after: Key, limit: nat)
    requires 1 <= limit <= TENANT_SCAN_PAGE_SIZE
    ensures var p, beyond := TenantScanPage(sh, after, limit), Beyond(sh.owners, after);
      var n := Min(|beyond|, limit);
      && p == Page(sh.id, Resolve(sh.rows, beyond[..n]), Some(n), if n == 0 then None else Some(beyond[n - 1]))
      && (n < limit ==> p.rows == LiveBeyond(sh, after))
  {
    var beyond := Beyond(sh.owners, after);
    assert beyond[..|beyond|] == beyond;
  }

  lemma BoundNotBeyond(sh: ShardStore, after: Key, n: nat, bound: Key)
    requires ValidStore(sh) && 1 <= n <= |Beyond(sh.owners, after)|
    requires bound == after || bound in Beyond(sh.owners, after)[..n]
    ensures Later(bound, Beyond(sh.owners, after)[n - 1]) == Beyond(sh.owners, after)[n - 1]
  {
    var last := Beyond(sh.owners, after)[n - 1];
    BeyondAscending(sh.owners, after);
    BeyondMembers(sh.owners, after, last);
    BinaryTotalOrder(bound, last, bound);
  }

  // ---- mergeTableScanPages ----

  lemma {:induction false} OfAppend(s: ShardId, es: seq<Entry>, e: Entry)
    ensures Of(s, es + [e]) == if e.shard == s then Of(s, es) + [e] else Of(s, es)
  {
    OfConcat(s, es, [e]);
    assert [e][1..] == [];
  }

  function RowsOf(es: seq<Entry>): (rows: seq<Row>)
    ensures |rows| == |es|
  {
    seq(|es|, i requires 0 <= i < |es| => es[i].row)
  }

  /** The flattening loop. */
  method CollectEntries(pages: seq<Page>) returns (all: seq<Entry>)
    ensures all == AllEntries(pages)
  {
    all := [];
    for p := 0 to |pages|
      invariant all == AllEntries(pages[..p])
    {
      assert pages[..p + 1][..p] == pages[..p];
      all := all + Tag(pages[p].shard, pages[p].rows);
    }
    assert pages[..|pages|] == pages;
  }

  /** Every paged shard gets an explicit entry, "" when it had none. */
  method SeedCursors(pages: seq<Page>, prior: map<ShardId, Key>) returns (next: map<ShardId, Key>)
    ensures next.Keys == prior.Keys + IdsOf(pages)
    ensures forall s | s in next :: next[s] == CursorOf(prior, s)
  {
    next := prior;
    for p := 0 to |pages|
      invariant next.Keys == prior.Keys + IdsOf(pages[..p])
      invariant forall s | s in next :: next[s] == CursorOf(prior, s)
    {
      assert IdsOf(pages[..p + 1]) == IdsOf(pages[..p]) + {pages[p].shard} by {
        assert pages[..p + 1] == pages[..p] + [pages[p]];
      }
      if pages[p].shard !in next { next := next[pages[p].shard := ""]; }
    }
    assert pages[..|pages|] == pages;
  }

  function CountOf(counts: map<ShardId, nat>, s: ShardId): nat { if s in counts then counts[s] else 0 }

  /** What the delivery loop knows after the rows `es`. */
  ghost predicate Tracks(next: map<ShardId, Key>, delivered: map<ShardId, nat>, seeded: map<ShardId, Key>, es: seq<Entry>) {
    && next.Keys == seeded.Keys
    && (forall s | s in next :: next[s] == Furthest(seeded[s], Of(s, es)))
    && (forall s :: CountOf(delivered, s) == |Of(s, es)|)
  }

  lemma TracksStep(next: map<ShardId, Key>, delivered: map<ShardId, nat>, seeded: map<ShardId, Key>, es: seq<Entry>, e: Entry)
    requires Tracks(next, delivered, seeded, es) && e.shard in seeded
    ensures Tracks(next[e.shard := Later(next[e.shard], e.key)], delivered[e.shard := CountOf(delivered, e.shard) + 1], seeded, es + [e])
  {
    var next' := next[e.shard := Later(next[e.shard], e.key)];
    var delivered' := delivered[e.shard := CountOf(delivered, e.shard) + 1];
    forall s ensures CountOf(delivered', s) == |Of(s, es + [e])| { OfAppend(s, es, e); }
    forall s | s in next' ensures next'[s] == Furthest(seeded[s], Of(s, es + [e])) {
      OfAppend(s, es, e);
      FurthestAppend(seeded[s], Of(s, es), e);
    }
  }

  lemma FurthestAppend(current: Key, es: seq<Entry>, e: Entry)
    ensures Furthest(current, es + [e]) == Later(Furthest(current, es), e.key)
  {
    assert (es + [e])[..|es|] == es;
  }

  /** Rule (b), and the count of rows each shard delivered. */
  method AdvanceToDelivered(truncated: seq<Entry>, seeded: map<ShardId, Key>)
    returns (next: map<ShardId, Key>, delivered: map<ShardId, nat>)
    requires forall e | e in truncated :: e.shard in seeded
    ensures Tracks(next, delivered, seeded, truncated)
  {
    next, delivered := seeded, map[];
    for t := 0 to |truncated|
      invariant Tracks(next, delivered, seeded, truncated[..t])
    {
      var e := truncated[t];
      assert truncated[..t + 1] == truncated[..t] + [e];
      assert e in truncated && e.shard in next;
      TracksStep(next, delivered, seeded, truncated[..t], e);
      next := next[e.shard := Later(next[e.shard], e.key)];
      delivered := delivered[e.shard := CountOf(delivered, e.shard) + 1];
    }
    assert truncated[..|truncated|] == truncated;
  }

  /** Rule (a): a shard that used its whole limit may move past everything it scanned,
      unless the cut took some of its rows. */
  method AdvanceToScanned(pages: seq<Page>, perShardLimit: nat, bounds: map<ShardId, Key>, delivered: map<ShardId, nat>)
    returns (next: map<ShardId, Key>)
    requires DistinctShards(pages) && IdsOf(pages) <= bounds.Keys
    ensures next.Keys == bounds.Keys
    ensures forall i | 0 <= i < |pages| ::
      next[pages[i].shard] == ScannedCursor(pages[i], perShardLimit, bounds[pages[i].shard], CountOf(delivered, pages[i].shard))
    ensures forall s | s in next && s !in IdsOf(pages) :: next[s] == bounds[s]
  {
    next := bounds;
    for p := 0 to |pages|
      invariant next.Keys == bounds.Keys
      invariant forall i | 0 <= i < p ::
        next[pages[i].shard] == ScannedCursor(pages[i], perShardLimit, bounds[pages[i].shard], CountOf(delivered, pages[i].shard))
      invariant forall i | p <= i < |pages| :: next[pages[i].shard] == bounds[pages[i].shard]
      invariant forall s | s in next && s !in IdsOf(pages) :: next[s] == bounds[s]
    {
      assert forall i | 0 <= i < |pages| && i != p :: pages[i].shard != pages[p].shard;
      var cursor := AdvanceOne(pages[p], perShardLimit, next[pages[p].shard], CountOf(delivered, pages[p].shard));
      next := next[pages[p].shard := cursor];
    }
  }

  /** The body of that loop for one page. */
  method AdvanceOne(page: Page, perShardLimit: nat, current: Key, deliveredCount: nat) returns (cursor: Key)
    ensures cursor == ScannedCursor(page, perShardLimit, current, deliveredCount)
  {
    if page.Scanned() < perShardLimit { return current; }
    if page.lastOwnerKeyScanned.None? { return current; }
    var last := page.lastOwnerKeyScanned.value;
    if page.rows == [] { return if Less(current, last) then last else current; }
    if deliveredCount < |page.rows| { return current; }
    return if Less(current, last) then last else current;
  }

  /** Every shard's rows, merged and cut at the page limit; the next cursor of every
      shard when more is expected, and none otherwise. */
  method MergeTableScanPages(pages: seq<Page>, overallLimit: nat, perShardLimit: nat, prior: map<ShardId, Key>)
    returns (rows: seq<Row>, nextShardCursors: Option<map<ShardId, Key>>)
    requires DistinctShards(pages)
    ensures rows == RowsOf(Truncated(pages, overallLimit))
    ensures nextShardCursors == if MoreExpected(pages, overallLimit, perShardLimit)
                                then Some(NextCursors(pages, overallLimit, perShardLimit, prior)) else None
  {
    var all := CollectEntries(pages);
    all := Sort(all);
    var truncated := all[..Min(|all|, overallLimit)];
    TruncatedShards(pages, overallLimit);
    var seeded := SeedCursors(pages, prior);
    var bounds, delivered := AdvanceToDelivered(truncated, seeded);
    var next := AdvanceToScanned(pages, perShardLimit, bounds, delivered);
    MergedCursors(pages, overallLimit, perShardLimit, prior, seeded, bounds, delivered, next);
    var anyRowsTruncatedAway := |all| > |truncated|;
    var anyShardMayHaveMore := anyRowsTruncatedAway || exists i :: 0 <= i < |pages| && pages[i].Scanned() >= perShardLimit;
    rows := RowsOf(truncated);
    nextShardCursors := if anyShardMayHaveMore then Some(next) else None;
  }

  lemma TruncatedShards(pages: seq<Page>, overallLimit: nat)
    ensures forall e | e in Truncated(pages, overallLimit) :: e.shard in IdsOf(pages)
    ensures |Sort(AllEntries(pages))| == |AllEntries(pages)|
  {
    var all := AllEntries(pages);
    SortIsSortedPermutation(all);
    assert |multiset(Sort(all))| == |multiset(all)|;
    AllEntriesTagged(pages);
    forall e | e in Truncated(pages, overallLimit) ensures e.shard in IdsOf(pages) { assert e in multiset(Sort(all)); }
  }

  lemma MergedCursors(pages: seq<Page>, overallLimit: nat, perShardLimit: nat, prior: map<ShardId, Key>,
                      seeded: map<ShardId, Key>, bounds: map<ShardId, Key>, delivered: map<ShardId, nat>, next: map<ShardId, Key>)
    requires seeded.Keys == next.Keys == prior.Keys + IdsOf(pages)
    requires forall s | s in seeded :: seeded[s] == CursorOf(prior, s)
    requires Tracks(bounds, delivered, seeded, Truncated(pages, overallLimit))
    requires forall i | 0 <= i < |pages| ::
      next[pages[i].shard] == ScannedCursor(pages[i], perShardLimit, bounds[pages[i].shard], CountOf(delivered, pages[i].shard))
    requires forall s | s in next && s !in IdsOf(pages) :: next[s] == bounds[s]
    ensures next == NextCursors(pages, overallLimit, perShardLimit, prior)
  {
    var spec := NextCursors(pages, overallLimit, perShardLimit, prior);
    TruncatedShards(pages, overallLimit);
    forall s | s in next ensures next[s] == spec[s] {
      if s in IdsOf(pages) {
        var i :| 0 <= i < |pages| && pages[i] == PageOf(pages, s);
      } else {
        NotDelivered(s, pages, Truncated(pages, overallLimit));
      }
    }
  }

  lemma {:induction false} AllEntriesTagged(pages: seq<Page>)
    ensures forall e | e in AllEntries(pages) :: e.shard in IdsOf(pages)
  {
    if pages != [] {
      var init := pages[..|pages| - 1];
      AllEntriesTagged(init);
      forall e | e in AllEntries(pages) ensures e.shard in IdsOf(pages) {
        if e in AllEntries(init) { assert e.shard in IdsOf(init); }
      }
    }
  }

  lemma NotDelivered(s: ShardId, pages: seq<Page>, es: seq<Entry>)
    requires s !in IdsOf(pages) && forall e | e in es :: e.shard in IdsOf(pages)
    ensures Of(s, es) == []
  {
    if Of(s, es) != [] { OfMembers(s, es, Of(s, es)[0]); }
  }

  // ---- following the cursor over an unchanging fleet ----

  ghost predicate ValidFleet(fleet: seq<ShardStore>) {
    && (forall i | 0 <= i < |fleet| :: ValidStore(fleet[i]))
    && (forall i, j | 0 <= i < j < |fleet| :: fleet[i].id != fleet[j].id)
  }

  function PerShardLimit(limit: nat): nat { Min(TENANT_SCAN_PAGE_SIZE, limit) }

  /** tableScanCore's fan-out: one page per shard, from that shard's cursor. */
  function FleetPages(fleet: seq<ShardStore>, limit: nat, cursors: map<ShardId, Key>): (pages: seq<Page>)
    ensures |pages| == |fleet|
  {
    seq(|fleet|, i requires 0 <= i < |fleet| => TenantScanPage(fleet[i], CursorOf(cursors, fleet[i].id), PerShardLimit(limit)))
  }

  /** Owner keys the cursors have not passed yet, over the first n shards. */
  function OwnersBeyond(fleet: seq<ShardStore>, cursors: map<ShardId, Key>, n: nat): nat
    requires n <= |fleet|
  {
    if n == 0 then 0 else OwnersBeyond(fleet, cursors, n - 1) + LeftOn(fleet[n - 1], cursors)
  }

  function LeftOn(sh: ShardStore, cursors: map<ShardId, Key>): nat { |Beyond(sh.owners, CursorOf(cursors, sh.id))| }

  lemma {:induction false} OfTag(s: ShardId, t: ShardId, rows: seq<ShardRow>)
    ensures Of(s, Tag(t, rows)) == if s == t then Tag(t, rows) else []
  {
    if rows != [] {
      assert Tag(t, rows)[1..] == Tag(t, rows[1..]);
      OfTag(s, t, rows[1..]);
      assert Tag(t, rows) == [Tag(t, rows)[0]] + Tag(t, rows[1..]);
    }
  }

  lemma {:induction false} OfAllEntries(pages: seq<Page>, k: nat)
    requires DistinctShards(pages) && k < |pages|
    ensures Of(pages[k].shard, AllEntries(pages)) == Tag(pages[k].shard, pages[k].rows)
  {
    var n := |pages| - 1;
    var init := pages[..n];
    var s := pages[k].shard;
    OfConcat(s, AllEntries(init), Tag(pages[n].shard, pages[n].rows));
    OfTag(s, pages[n].shard, pages[n].rows);
    assert AllEntries(pages) == AllEntries(init) + Tag(pages[n].shard, pages[n].rows);
    if k < n {
      OfAllEntries(init, k);
      assert init[k] == pages[k] && pages[k].shard != pages[n].shard;
      assert Of(s, Tag(pages[n].shard, pages[n].rows)) == [];
    } else {
      OfNoEntry(s, init);
      assert Of(s, AllEntries(init)) == [];
    }
  }

  lemma OfNoEntry(s: ShardId, pages: seq<Page>)
    requires forall i | 0 <= i < |pages| :: pages[i].shard != s
    ensures Of(s, AllEntries(pages)) == []
  {
    AllEntriesTagged(pages);
    NotDelivered(s, pages, AllEntries(pages));
  }

  lemma FleetPagesDistinct(fleet: seq<ShardStore>, limit: nat, cursors: map<ShardId, Key>)
    requires ValidFleet(fleet)
    ensures var pages := FleetPages(fleet, limit, cursors);
      DistinctShards(pages) && forall k | 0 <= k < |fleet| :: fleet[k].id in IdsOf(pages) && PageOf(pages, fleet[k].id) == pages[k]
  {
    var pages := FleetPages(fleet, limit, cursors);
    forall k | 0 <= k < |fleet| ensures fleet[k].id in IdsOf(pages) && PageOf(pages, fleet[k].id) == pages[k] {
      assert pages[k].shard == fleet[k].id;
      var p := PageOf(pages, fleet[k].id);
      var i :| 0 <= i < |pages| && pages[i] == p;
      assert fleet[i].id == fleet[k].id;
    }
  }

  lemma TaggedSorted(s: ShardId, rows: seq<ShardRow>)
    requires AscendingRows(rows)
    ensures Sorted(Tag(s, rows))
  {
    var tagged := Tag(s, rows);
    forall i, j | 0 <= i < j < |tagged| ensures !Before(tagged[j], tagged[i]) {
      BinaryTotalOrder(tagged[i].key, tagged[j].key, tagged[i].key);
    }
  }

  /** A shard's share of the merged list is the page it sent. */
  lemma ShareOfMerge(pages: seq<Page>, k: nat)
    requires DistinctShards(pages) && k < |pages| && AscendingRows(pages[k].rows)
    ensures Of(pages[k].shard, Sort(AllEntries(pages))) == Tag(pages[k].shard, pages[k].rows)
  {
    OfAllEntries(pages, k);
    OfSort(pages[k].shard, AllEntries(pages));
    TaggedSorted(pages[k].shard, pages[k].rows);
    SortOfSorted(Tag(pages[k].shard, pages[k].rows));
  }

  lemma PagesAscending(fleet: seq<ShardStore>, limit: nat, cursors: map<ShardId, Key>, k: nat)
    requires ValidFleet(fleet) && k < |fleet|
    ensures FleetPages(fleet, limit, cursors)[k].shard == fleet[k].id
    ensures AscendingRows(FleetPages(fleet, limit, cursors)[k].rows)
  {
    PageBound(fleet[k], CursorOf(cursors, fleet[k].id), PerShardLimit(limit), 0);
  }

  /** After the cut each shard keeps a prefix of the page it sent. */
  lemma DeliveredIsPagePrefix(fleet: seq<ShardStore>, limit: nat, cursors: map<ShardId, Key>, k: nat)
    requires ValidFleet(fleet) && k < |fleet|
    ensures var pages := FleetPages(fleet, limit, cursors);
      var got := Of(fleet[k].id, Truncated(pages, limit));
      && |got| <= |pages[k].rows|
      && got == Tag(fleet[k].id, pages[k].rows)[..|got|]
      && Of(fleet[k].id, Sort(AllEntries(pages))) == Tag(fleet[k].id, pages[k].rows)
  {
    SharesArePages(fleet, limit, cursors, k);
    CutKeepsPrefix(fleet[k].id, Sort(AllEntries(FleetPages(fleet, limit, cursors))), limit);
  }

  lemma SharesArePages(fleet: seq<ShardStore>, limit: nat, cursors: map<ShardId, Key>, k: nat)
    requires ValidFleet(fleet) && k < |fleet|
    ensures Of(fleet[k].id, Sort(AllEntries(FleetPages(fleet, limit, cursors)))) == Tag(fleet[k].id, FleetPages(fleet, limit, cursors)[k].rows)
  {
    FleetPagesDistinct(fleet, limit, cursors);
    PagesAscending(fleet, limit, cursors, k);
    ShareOfMerge(FleetPages(fleet, limit, cursors), k);
  }

  lemma CutKeepsPrefix(s: ShardId, sorted: seq<Entry>, limit: nat)
    ensures var got := Of(s, sorted[..Min(|sorted|, limit)]); |got| <= |Of(s, sorted)| && got == Of(s, sorted)[..|got|]
  {
    OfPrefix(s, sorted, Min(|sorted|, limit));
  }

  lemma CursorStep(fleet: seq<ShardStore>, limit: nat, cursors: map<ShardId, Key>, k: nat)
    requires ValidFleet(fleet) && k < |fleet|
    ensures var pages := FleetPages(fleet, limit, cursors);
      CursorOf(NextCursors(pages, limit, PerShardLimit(limit), cursors), fleet[k].id)
      == NextCursor(pages[k], PerShardLimit(limit), CursorOf(cursors, fleet[k].id), Of(fleet[k].id, Truncated(pages, limit)))
  {
    FleetPagesDistinct(fleet, limit, cursors);
  }

  lemma TagConcat(s: ShardId, xs: seq<ShardRow>, ys: seq<ShardRow>, d: nat)
    requires d <= |xs|
    ensures Tag(s, xs + ys) == Tag(s, xs) + Tag(s, ys)
    ensures Tag(s, xs)[..d] == Tag(s, xs[..d])
  {
  }

  /** One page, one shard: delivered rows, then what the new cursor owes, are what the
      old cursor owed. */
  lemma PageStep(fleet: seq<ShardStore>, limit: nat, cursors: map<ShardId, Key>, k: nat)
    requires ValidFleet(fleet) && k < |fleet| && limit >= 1
    ensures var pages := FleetPages(fleet, limit, cursors);
      var got := Of(fleet[k].id, Truncated(pages, limit));
      var sh := fleet[k];
      var here, there := CursorOf(cursors, sh.id), CursorOf(NextCursors(pages, limit, PerShardLimit(limit), cursors), sh.id);
      && got + Tag(sh.id, LiveBeyond(sh, there)) == Tag(sh.id, LiveBeyond(sh, here))
      && |Beyond(sh.owners, there)| <= |Beyond(sh.owners, here)|
      && (got != [] || (pages[k].rows == [] && pages[k].Scanned() >= PerShardLimit(limit))
          ==> |Beyond(sh.owners, there)| < |Beyond(sh.owners, here)|)
  {
    var pages := FleetPages(fleet, limit, cursors);
    var sh := fleet[k];
    var here := CursorOf(cursors, sh.id);
    DeliveredIsPagePrefix(fleet, limit, cursors, k);
    CursorStep(fleet, limit, cursors, k);
    var d := |Of(sh.id, Truncated(pages, limit))|;
    PageAccounts(sh, here, PerShardLimit(limit), d);
    var there := CursorOf(NextCursors(pages, limit, PerShardLimit(limit), cursors), sh.id);
    TagConcat(sh.id, pages[k].rows, [], d);
    TagConcat(sh.id, pages[k].rows[..d], LiveBeyond(sh, there), 0);
  }

  /** When no further cursor is handed out, this page completes every shard. */
  lemma LastPage(fleet: seq<ShardStore>, limit: nat, cursors: map<ShardId, Key>, k: nat)
    requires ValidFleet(fleet) && k < |fleet| && limit >= 1
    requires !MoreExpected(FleetPages(fleet, limit, cursors), limit, PerShardLimit(limit))
    ensures Of(fleet[k].id, Truncated(FleetPages(fleet, limit, cursors), limit))
         == Tag(fleet[k].id, LiveBeyond(fleet[k], CursorOf(cursors, fleet[k].id)))
  {
    var pages := FleetPages(fleet, limit, cursors);
    TruncatedShards(pages, limit);
    assert Truncated(pages, limit) == Sort(AllEntries(pages));
    DeliveredIsPagePrefix(fleet, limit, cursors, k);
    PageAccounts(fleet[k], CursorOf(cursors, fleet[k].id), PerShardLimit(limit), 0);
    assert pages[k].Scanned() < PerShardLimit(limit);
  }

  lemma {:induction false} OwnersBeyondMonotone(fleet: seq<ShardStore>, cursors: map<ShardId, Key>, next: map<ShardId, Key>, n: nat, k: nat)
    requires n <= |fleet|
    requires forall i | 0 <= i < n :: LeftOn(fleet[i], next) <= LeftOn(fleet[i], cursors)
    ensures OwnersBeyond(fleet, next, n) <= OwnersBeyond(fleet, cursors, n)
    ensures k < n && LeftOn(fleet[k], next) < LeftOn(fleet[k], cursors) ==> OwnersBeyond(fleet, next, n) < OwnersBeyond(fleet, cursors, n)
  {
    if n > 0 { OwnersBeyondMonotone(fleet, cursors, next, n - 1, k); }
  }

  lemma CutPageDelivers(fleet: seq<ShardStore>, limit: nat, cursors: map<ShardId, Key>) returns (k: nat)
    requires ValidFleet(fleet)
    requires Truncated(FleetPages(fleet, limit, cursors), limit) != []
    ensures k < |fleet| && Of(fleet[k].id, Truncated(FleetPages(fleet, limit, cursors), limit)) != []
  {
    var pages := FleetPages(fleet, limit, cursors);
    TruncatedShards(pages, limit);
    var e := Truncated(pages, limit)[0];
    assert e in Truncated(pages, limit);
    k :| 0 <= k < |pages| && pages[k].shard == e.shard;
    assert fleet[k].id == e.shard;
    OfMembers(fleet[k].id, Truncated(pages, limit), e);
  }

  lemma SomeShardAdvances(fleet: seq<ShardStore>, limit: nat, cursors: map<ShardId, Key>) returns (k: nat)
    requires ValidFleet(fleet) && limit >= 1
    requires MoreExpected(FleetPages(fleet, limit, cursors), limit, PerShardLimit(limit))
    ensures k < |fleet|
    ensures var pages := FleetPages(fleet, limit, cursors);
      Of(fleet[k].id, Truncated(pages, limit)) != [] || (pages[k].rows == [] && pages[k].Scanned() >= PerShardLimit(limit))
  {
    var pages := FleetPages(fleet, limit, cursors);
    TruncatedShards(pages, limit);
    if Truncated(pages, limit) != [] {
      k := CutPageDelivers(fleet, limit, cursors);
    } else {
      assert AllEntries(pages) == [];
      k :| 0 <= k < |pages| && pages[k].Scanned() >= PerShardLimit(limit);
      DeliveredIsPagePrefix(fleet, limit, cursors, k);
      assert Sort(AllEntries(pages)) == [];
    }
  }

  /** Whenever a next cursor is handed out, fewer owner keys lie beyond it. */
  lemma ScanProgress(fleet: seq<ShardStore>, limit: nat, cursors: map<ShardId, Key>)
    requires ValidFleet(fleet) && limit >= 1
    requires MoreExpected(FleetPages(fleet, limit, cursors), limit, PerShardLimit(limit))
    ensures OwnersBeyond(fleet, NextCursors(FleetPages(fleet, limit, cursors), limit, PerShardLimit(limit), cursors), |fleet|)
          < OwnersBeyond(fleet, cursors, |fleet|)
  {
    var k := SomeShardAdvances(fleet, limit, cursors);
    var next := NextCursors(FleetPages(fleet, limit, cursors), limit, PerShardLimit(limit), cursors);
    forall i | 0 <= i < |fleet| ensures LeftOn(fleet[i], next) <= LeftOn(fleet[i], cursors) { PageStep(fleet, limit, cursors, i); }
    PageStep(fleet, limit, cursors, k);
    OwnersBeyondMonotone(fleet, cursors, next, |fleet|, k);
  }

  /** Everything a client receives by following the cursor from `cursors` to the end. */
  ghost function ScanFrom(fleet: seq<ShardStore>, limit: nat, cursors: map<ShardId, Key>): seq<Entry>
    requires ValidFleet(fleet) && limit >= 1
    decreases OwnersBeyond(fleet, cursors, |fleet|)
  {
    var pages := FleetPages(fleet, limit, cursors);
    if !MoreExpected(pages, limit, PerShardLimit(limit)) then Truncated(pages, limit)
    else
      ScanProgress(fleet, limit, cursors);
      Truncated(pages, limit) + ScanFrom(fleet, limit, NextCursors(pages, limit, PerShardLimit(limit), cursors))
  }

  /** A shard's remaining live rows are received, in key order, exactly once. */
  lemma {:induction false} ScanDelivers(fleet: seq<ShardStore>, limit: nat, cursors: map<ShardId, Key>, k: nat)
    requires ValidFleet(fleet) && limit >= 1 && k < |fleet|
    ensures Of(fleet[k].id, ScanFrom(fleet, limit, cursors)) == Tag(fleet[k].id, LiveBeyond(fleet[k], CursorOf(cursors, fleet[k].id)))
    decreases OwnersBeyond(fleet, cursors, |fleet|)
  {
    var pages := FleetPages(fleet, limit, cursors);
    if MoreExpected(pages, limit, PerShardLimit(limit)) {
      ScanProgress(fleet, limit, cursors);
      var next := NextCursors(pages, limit, PerShardLimit(limit), cursors);
      ScanDelivers(fleet, limit, next, k);
      PageStep(fleet, limit, cursors, k);
      OfConcat(fleet[k].id, Truncated(pages, limit), ScanFrom(fleet, limit, next));
    } else {
      LastPage(fleet, limit, cursors, k);
    }
  }

  /** Nothing is received from outside the fleet. */
  lemma {:induction false} ScanSource(fleet: seq<ShardStore>, limit: nat, cursors: map<ShardId, Key>, e: Entry) returns (k: nat)
    requires ValidFleet(fleet) && limit >= 1 && e in ScanFrom(fleet, limit, cursors)
    ensures k < |fleet| && fleet[k].id == e.shard
    decreases OwnersBeyond(fleet, cursors, |fleet|)
  {
    var pages := FleetPages(fleet, limit, cursors);
    if e in Truncated(pages, limit) {
      TruncatedShards(pages, limit);
      k :| 0 <= k < |pages| && pages[k].shard == e.shard;
      assert fleet[k].id == e.shard;
    } else {
      ScanProgress(fleet, limit, cursors);
      k := ScanSource(fleet, limit, NextCursors(pages, limit, PerShardLimit(limit), cursors), e);
    }
  }

  /** A scan from the empty cursor: for each shard exactly its live rows, once each, in
      key order, and nothing else. */
  lemma ScanExactlyOnce(fleet: seq<ShardStore>, limit: nat)
    requires ValidFleet(fleet) && limit >= 1
    ensures forall k | 0 <= k < |fleet| ::
      Of(fleet[k].id, ScanFrom(fleet, limit, map[])) == Tag(fleet[k].id, Resolve(fleet[k].rows, fleet[k].owners))
    ensures forall e | e in ScanFrom(fleet, limit, map[]) :: exists k :: 0 <= k < |fleet| && fleet[k].id == e.shard
  {
    forall k | 0 <= k < |fleet|
      ensures Of(fleet[k].id, ScanFrom(fleet, limit, map[])) == Tag(fleet[k].id, Resolve(fleet[k].rows, fleet[k].owners))
    {
      ScanDelivers(fleet, limit, map[], k);
      forall key | key in fleet[k].owners ensures Less("", key) { NonEmptyAfterEmpty(key); }
      BeyondAll(fleet[k].owners, "");
    }
    forall e | e in ScanFrom(fleet, limit, map[]) ensures exists k :: 0 <= k < |fleet| && fleet[k].id == e.shard {
      var k := ScanSource(fleet, limit, map[], e);
    }
  }

  lemma NonEmptyAfterEmpty(key: Key)
    requires key != ""
    ensures Less("", key)
  {
    BinaryZeroIffEqual("", key);
  }

  // ---- global order ----

  /** No owner key is missing its base row. */
  ghost predicate NoSkips(fleet: seq<ShardStore>) {
    forall k, key | 0 <= k < |fleet| && key in fleet[k].owners :: key in fleet[k].rows
  }

  lemma {:induction false} ResolveNoSkips(rows: map<Key, Row>, keys: seq<Key>)
    requires forall k | k in keys :: k in rows
    ensures |Resolve(rows, keys)| == |keys|
  {
    if keys != [] { ResolveNoSkips(rows, keys[1..]); }
  }

  /** In a sorted list cut at n, an entry that follows its own shard's delivered entries
      and does not precede that shard's first cut entry precedes nothing delivered. */
  lemma CutBeforeRemainder(s: ShardId, sorted: seq<Entry>, n: nat, j: nat, e: Entry)
    requires Sorted(sorted) && j < n <= |sorted|
    requires FollowsShare(Of(s, sorted[..n]), Of(s, sorted), e, n)
    ensures !Before(e, sorted[j])
  {
    OfPrefix(s, sorted, n);
    if |Of(s, sorted[..n])| < |Of(s, sorted)| {
      var m := FirstCut(s, sorted, n);
      NotBeforeTransitive(e, sorted[m], sorted[j]);
    } else {
      assert sorted[..n][j] == sorted[j];
      OfAllMembers(s, sorted[..n], sorted[j]);
      BeforeIsAsymmetric(sorted[j], e);
    }
  }

  lemma FirstCut(s: ShardId, es: seq<Entry>, n: nat) returns (m: nat)
    requires n <= |es| && |Of(s, es[..n])| < |Of(s, es)|
    ensures n <= m < |es| && es[m] == Of(s, es)[|Of(s, es[..n])|]
  {
    assert es == es[..n] + es[n..];
    OfConcat(s, es[..n], es[n..]);
    var x := Of(s, es[n..])[0];
    OfMembers(s, es[n..], x);
    var i :| 0 <= i < |es[n..]| && es[n..][i] == x;
    m := n + i;
  }

  /** Rows not delivered come after every delivered row of their own shard, and no
      earlier than the first row cut. */
  lemma RemainderFollows(s: ShardId, owed: seq<ShardRow>, d: nat, r: ShardRow)
    requires d <= |owed| && r in owed[d..]
    requires AscendingRows(owed)
    ensures forall i | 0 <= i < d :: Before(Tag(s, owed)[i], Entry(s, r.key, r.row))
    ensures d < |owed| && !Before(Entry(s, r.key, r.row), Tag(s, owed)[d])
  {
    var m :| 0 <= m < |owed[d..]| && owed[d..][m] == r;
    assert owed[d + m] == r;
    var e := Entry(s, r.key, r.row);
    if m == 0 { BeforeIsStrictOrder(e, e, e); } else { BeforeIsStrictOrder(Tag(s, owed)[d], e, e); }
  }

  /** A row a page leaves behind never belongs before a row it delivers. */
  lemma PageBeforeRemainder(fleet: seq<ShardStore>, limit: nat, cursors: map<ShardId, Key>, k: nat, j: nat, r: ShardRow)
    requires ValidFleet(fleet) && NoSkips(fleet) && 1 <= limit <= TENANT_SCAN_PAGE_SIZE && k < |fleet|
    requires j < |Truncated(FleetPages(fleet, limit, cursors), limit)|
    requires var pages := FleetPages(fleet, limit, cursors);
      r in LiveBeyond(fleet[k], CursorOf(NextCursors(pages, limit, PerShardLimit(limit), cursors), fleet[k].id))
    ensures !Before(Entry(fleet[k].id, r.key, r.row), Truncated(FleetPages(fleet, limit, cursors), limit)[j])
  {
    var pages := FleetPages(fleet, limit, cursors);
    var s := fleet[k].id;
    var sorted := Sort(AllEntries(pages));
    var n := Min(|sorted|, limit);
    RemainderOfPage(fleet, limit, cursors, k, r);
    SortIsSortedPermutation(AllEntries(pages));
    OfMembers(s, sorted[..n], sorted[j]);
    assert |Of(s, sorted[..n])| == limit ==> n == limit;
    CutBeforeRemainder(s, sorted, n, j, Entry(s, r.key, r.row));
  }

  lemma RemainderOfPage(fleet: seq<ShardStore>, limit: nat, cursors: map<ShardId, Key>, k: nat, r: ShardRow)
    requires ValidFleet(fleet) && NoSkips(fleet) && 1 <= limit <= TENANT_SCAN_PAGE_SIZE && k < |fleet|
    requires var pages := FleetPages(fleet, limit, cursors);
      r in LiveBeyond(fleet[k], CursorOf(NextCursors(pages, limit, PerShardLimit(limit), cursors), fleet[k].id))
    ensures var pages := FleetPages(fleet, limit, cursors);
      FollowsShare(Of(fleet[k].id, Truncated(pages, limit)), Of(fleet[k].id, Sort(AllEntries(pages))), Entry(fleet[k].id, r.key, r.row), limit)
  {
    var pages := FleetPages(fleet, limit, cursors);
    var here := CursorOf(cursors, fleet[k].id);
    var d := |Of(fleet[k].id, Truncated(pages, limit))|;
    PageLeaves(fleet, limit, cursors, k, r);
    BeyondAscending(fleet[k].owners, here);
    ResolveAscending(fleet[k].rows, Beyond(fleet[k].owners, here));
    DeliveredIsPagePrefix(fleet, limit, cursors, k);
    RowsFollowShare(fleet[k].id, LiveBeyond(fleet[k], here), pages[k].rows, d, r, limit);
  }

  /** `e` follows the delivered entries of its shard and does not precede the first one
      cut; if none was cut, the shard filled the page. */
  ghost predicate FollowsShare(got: seq<Entry>, share: seq<Entry>, e: Entry, limit: nat) {
    && (forall i | 0 <= i < |got| :: Before(got[i], e))
    && (|got| < |share| ==> !Before(e, share[|got|]))
    && (|got| == |share| ==> |got| == limit)
  }

  lemma RowsFollowShare(s: ShardId, owed: seq<ShardRow>, rows: seq<ShardRow>, d: nat, r: ShardRow, limit: nat)
    requires AscendingRows(owed) && rows <= owed && d <= |rows| && r in owed[d..] && (d == |rows| ==> d == limit)
    ensures FollowsShare(Tag(s, rows)[..d], Tag(s, rows), Entry(s, r.key, r.row), limit)
  {
    RemainderFollows(s, owed, d, r);
    TagPrefix(s, rows, owed);
  }

  lemma TagPrefix(s: ShardId, xs: seq<ShardRow>, ys: seq<ShardRow>)
    requires xs <= ys
    ensures forall i | 0 <= i < |xs| :: Tag(s, xs)[i] == Tag(s, ys)[i]
  {
  }

  /** What a page leaves behind is a proper suffix of what was owed; a shard none of
      whose rows was cut filled the page by itself. */
  lemma PageLeaves(fleet: seq<ShardStore>, limit: nat, cursors: map<ShardId, Key>, k: nat, r: ShardRow)
    requires ValidFleet(fleet) && NoSkips(fleet) && 1 <= limit <= TENANT_SCAN_PAGE_SIZE && k < |fleet|
    requires var pages := FleetPages(fleet, limit, cursors);
      r in LiveBeyond(fleet[k], CursorOf(NextCursors(pages, limit, PerShardLimit(limit), cursors), fleet[k].id))
    ensures var pages := FleetPages(fleet, limit, cursors);
      var got := Of(fleet[k].id, Truncated(pages, limit));
      var owed := LiveBeyond(fleet[k], CursorOf(cursors, fleet[k].id));
      && |got| <= |pages[k].rows|
      && pages[k].rows <= owed
      && r in owed[|got|..]
      && (|got| == |pages[k].rows| ==> |got| == limit)
  {
    var pages := FleetPages(fleet, limit, cursors);
    var sh := fleet[k];
    var here := CursorOf(cursors, sh.id);
    var there := CursorOf(NextCursors(pages, limit, PerShardLimit(limit), cursors), sh.id);
    var got := Of(sh.id, Truncated(pages, limit));
    DeliveredIsPagePrefix(fleet, limit, cursors, k);
    CursorStep(fleet, limit, cursors, k);
    PageAccounts(sh, here, limit, |got|);
    PagePrefixOfOwed(sh, here, limit);
    assert LiveBeyond(sh, here)[|got|..] == LiveBeyond(sh, there);
    if |got| == |pages[k].rows| { FullPage(sh, here, limit); }
  }

  lemma PagePrefixOfOwed(sh: ShardStore, after: Key, limit: nat)
    requires ValidStore(sh) && 1 <= limit <= TENANT_SCAN_PAGE_SIZE
    ensures TenantScanPage(sh, after, limit).rows <= LiveBeyond(sh, after)
  {
    var beyond := Beyond(sh.owners, after);
    var n := Min(|beyond|, limit);
    assert beyond == beyond[..n] + beyond[n..];
    ResolveConcat(sh.rows, beyond[..n], beyond[n..]);
  }

  /** With no base row missing, a page is full or it is the shard's last. */
  lemma FullPage(sh: ShardStore, after: Key, limit: nat)
    requires ValidStore(sh) && 1 <= limit <= TENANT_SCAN_PAGE_SIZE
    requires forall key | key in sh.owners :: key in sh.rows
    ensures var rows := TenantScanPage(sh, after, limit).rows; |rows| == limit || rows == LiveBeyond(sh, after)
  {
    var beyond := Beyond(sh.owners, after);
    forall key | key in beyond ensures key in sh.rows { BeyondMembers(sh.owners, after, key); }
    ResolveNoSkips(sh.rows, beyond[..Min(|beyond|, limit)]);
    assert beyond[..|beyond|] == beyond;
  }

  lemma {:induction false} OfAllMembers(s: ShardId, es: seq<Entry>, e: Entry)
    requires |Of(s, es)| == |es| && e in es
    ensures e in Of(s, es)
  {
    if es != [] {
      OfMembers(s, es[1..], e);
      if e in es[1..] { OfAllMembers(s, es[1..], e); }
    }
  }

  lemma TaggedIndex(s: ShardId, rows: seq<ShardRow>, e: Entry) returns (m: nat)
    requires e in Tag(s, rows)
    ensures m < |rows| && rows[m] == ShardRow(e.key, e.row) && e.shard == s
  {
    m :| 0 <= m < |rows| && Tag(s, rows)[m] == e;
  }

  /** Nothing received after a page precedes anything in it. */
  lemma PageBeforeRest(fleet: seq<ShardStore>, limit: nat, cursors: map<ShardId, Key>, e: Entry, j: nat)
    requires ValidFleet(fleet) && NoSkips(fleet) && 1 <= limit <= TENANT_SCAN_PAGE_SIZE
    requires j < |Truncated(FleetPages(fleet, limit, cursors), limit)|
    requires e in ScanFrom(fleet, limit, NextCursors(FleetPages(fleet, limit, cursors), limit, PerShardLimit(limit), cursors))
    ensures !Before(e, Truncated(FleetPages(fleet, limit, cursors), limit)[j])
  {
    var next := NextCursors(FleetPages(fleet, limit, cursors), limit, PerShardLimit(limit), cursors);
    var k := ScanSource(fleet, limit, next, e);
    ScanDelivers(fleet, limit, next, k);
    OfMembers(e.shard, ScanFrom(fleet, limit, next), e);
    var m := TaggedIndex(e.shard, LiveBeyond(fleet[k], CursorOf(next, e.shard)), e);
    PageBeforeRemainder(fleet, limit, cursors, k, j, ShardRow(e.key, e.row));
  }

  lemma SortedConcat(xs: seq<Entry>, ys: seq<Entry>)
    requires Sorted(xs) && Sorted(ys)
    requires forall y, j | y in ys && 0 <= j < |xs| :: !Before(y, xs[j])
    ensures Sorted(xs + ys)
  {
    var zs := xs + ys;
    forall i, j | 0 <= i < j < |zs| ensures !Before(zs[j], zs[i]) {
      if i < |xs| <= j { assert zs[j] in ys; }
    }
  }

  /** With the per-shard limit equal to the page limit and no owner row skipped, the
      whole scan is one list in (key, shard) order. */
  lemma {:induction false} ScanInGlobalOrder(fleet: seq<ShardStore>, limit: nat, cursors: map<ShardId, Key>)
    requires ValidFleet(fleet) && NoSkips(fleet) && 1 <= limit <= TENANT_SCAN_PAGE_SIZE
    ensures Sorted(ScanFrom(fleet, limit, cursors))
    decreases OwnersBeyond(fleet, cursors, |fleet|)
  {
    var pages := FleetPages(fleet, limit, cursors);
    var t := Truncated(pages, limit);
    SortIsSortedPermutation(AllEntries(pages));
    assert Sorted(t);
    if MoreExpected(pages, limit, PerShardLimit(limit)) {
      ScanProgress(fleet, limit, cursors);
      var next := NextCursors(pages, limit, PerShardLimit(limit), cursors);
      ScanInGlobalOrder(fleet, limit, next);
      var rest := ScanFrom(fleet, limit, next);
      forall e, j | e in rest && 0 <= j < |t| ensures !Before(e, t[j]) { PageBeforeRest(fleet, limit, cursors, e, j); }
      SortedConcat(t, rest);
    }
  }

  /** Two shards: one owns `a`, whose base row is gone, and `b`; the other owns `c`. */
  function SkipFleet(s: ShardId, t: ShardId, a: Key, b: Key, c: Key, row: Row): seq<ShardStore> {
    [ShardStore(s, [a, b], map[b := row]), ShardStore(t, [c], map[c := row])]
  }

  lemma SkipFleetFirstPage(s: ShardId, t: ShardId, a: Key, b: Key, c: Key, row: Row)
    requires s != t && a != "" && Less(a, b) && Less(b, c)
    ensures ValidFleet(SkipFleet(s, t, a, b, c, row))
    ensures FleetPages(SkipFleet(s, t, a, b, c, row), 1, map[]) == [Page(s, [], Some(1), Some(a)), Page(t, [ShardRow(c, row)], Some(1), Some(c))]
  {
    BinaryTotalOrder(a, b, c);
    BinaryTotalOrder("", a, b);
    BinaryTotalOrder("", b, c);
    NonEmptyAfterEmpty(a);
    var fleet := SkipFleet(s, t, a, b, c, row);
    BeyondAll([a, b], "");
    BeyondAll([c], "");
    assert [a, b][..1] == [a] && [c][..1] == [c] && [a][1..] == [] && [c][1..] == [];
    assert Resolve(fleet[0].rows, [a]) == Resolve(fleet[0].rows, []);
    assert Resolve(fleet[1].rows, [c]) == [ShardRow(c, row)] + Resolve(fleet[1].rows, []);
    assert TenantScanPage(fleet[0], "", 1) == Page(s, [], Some(1), Some(a));
    assert TenantScanPage(fleet[1], "", 1) == Page(t, [ShardRow(c, row)], Some(1), Some(c));
  }

  lemma MergeOfOneRow(p: Page, t: ShardId, c: Key, row: Row, q: Page)
    requires p.rows == [] && q.rows == [ShardRow(c, row)] && q.shard == t
    ensures Truncated([p, q], 1) == [Entry(t, c, row)]
  {
    var e := Entry(t, c, row);
    assert [p, q][..1] == [p] && [p][..0] == [];
    assert AllEntries([p]) == AllEntries([]) + Tag(p.shard, []);
    assert AllEntries([p, q]) == AllEntries([p]) + Tag(t, q.rows);
    assert AllEntries([p, q]) == [e];
    assert [e][1..] == [] && Sort([e]) == Insert(e, []);
  }

  /** One owner row whose base row is gone is enough to break the global order: with a
      limit of one the first shard spends its page on the missing `a`, and `c` is
      delivered before `b`. */
  lemma SkippedRowBreaksGlobalOrder(s: ShardId, t: ShardId, a: Key, b: Key, c: Key, row: Row)
    requires s != t && a != "" && Less(a, b) && Less(b, c)
    ensures ValidFleet(SkipFleet(s, t, a, b, c, row)) && !Sorted(ScanFrom(SkipFleet(s, t, a, b, c, row), 1, map[]))
  {
    SkipFleetFirstPage(s, t, a, b, c, row);
    SkippedScanStart(s, t, a, b, c, row);
    SkippedShardStillDelivers(s, t, a, b, c, row);
    var whole := ScanFrom(SkipFleet(s, t, a, b, c, row), 1, map[]);
    var i :| 0 <= i < |whole| && whole[i] == Entry(s, b, row);
    assert Before(whole[i], whole[0]);
  }

  lemma SkippedScanStart(s: ShardId, t: ShardId, a: Key, b: Key, c: Key, row: Row)
    requires s != t && a != "" && Less(a, b) && Less(b, c) && ValidFleet(SkipFleet(s, t, a, b, c, row))
    ensures var whole := ScanFrom(SkipFleet(s, t, a, b, c, row), 1, map[]); whole != [] && whole[0] == Entry(t, c, row)
  {
    var fleet := SkipFleet(s, t, a, b, c, row);
    SkipFleetFirstPage(s, t, a, b, c, row);
    var pages := FleetPages(fleet, 1, map[]);
    MergeOfOneRow(pages[0], t, c, row, pages[1]);
    assert pages[0].Scanned() >= PerShardLimit(1);
    ScanProgress(fleet, 1, map[]);
  }

  lemma SkippedShardStillDelivers(s: ShardId, t: ShardId, a: Key, b: Key, c: Key, row: Row)
    requires s != t && a != "" && Less(a, b) && Less(b, c) && ValidFleet(SkipFleet(s, t, a, b, c, row))
    ensures Entry(s, b, row) in ScanFrom(SkipFleet(s, t, a, b, c, row), 1, map[])
  {
    var fleet := SkipFleet(s, t, a, b, c, row);
    ScanExactlyOnce(fleet, 1);
    ResolveMembers(fleet[0].rows, [a, b], ShardRow(b, row));
    var rows := Resolve(fleet[0].rows, [a, b]);
    var i :| 0 <= i < |rows| && rows[i] == ShardRow(b, row);
    assert Tag(s, rows)[i] == Entry(s, b, row);
    OfMembers(s, ScanFrom(fleet, 1, map[]), Entry(s, b, row));
  }
}
