/** A point lookup by a secondary index: entries gathered from the ring shard and every
    shard still being evacuated, sorted, looked up in the base rows, re-checked and cut. */
module IndexQuery {
  import opened Basics
  import opened Collation
  import opened KeyOrder

  type ShardId = string
  type Row = map<string, string>

  /** The queried tuple, and where its key lives now. */
  datatype Query = Query(ring: ShardId, shadows: seq<ShardId>, columns: seq<string>, values: map<string, string>, limit: nat)

  /** Each index shard's entries for the queried tuple and tenant in the order of its
      index, the owner of every key, the base rows, and the shards that answer. */
  datatype World = World(entries: map<ShardId, seq<Key>>, routes: map<Key, ShardId>, bases: map<ShardId, map<Key, Row>>, up: set<ShardId>)

  function Entries(w: World, s: ShardId): seq<Key> { if s in w.entries then w.entries[s] else [] }

  ghost predicate Ascending(keys: seq<Key>) { forall i, j | 0 <= i < j < |keys| :: Less(keys[i], keys[j]) }

  ghost predicate ValidWorld(w: World) { forall s | s in w.entries :: Ascending(w.entries[s]) }

  // ---- what a full scan would find ----

  predicate Matches(q: Query, row: Row) {
    forall c | c in q.columns :: c in row && c in q.values && row[c] == q.values[c]
  }

  /** The row stored under a key on the shard that owns it. */
  function Current(w: World, k: Key): Option<Row> {
    if k in w.routes && w.routes[k] in w.bases && k in w.bases[w.routes[k]] then Some(w.bases[w.routes[k]][k]) else None
  }

  predicate Live(w: World, q: Query, k: Key) { Current(w, k).Some? && Matches(q, Current(w, k).value) }

  function LiveKeys(w: World, q: Query): set<Key> { set k | k in w.routes && Live(w, q, k) }

  // ---- what the lookup sees ----

  function Cap(q: Query): nat { q.limit * 5 }

  function Head(w: World, s: ShardId, cap: nat): seq<Key> {
    var es := Entries(w, s); if |es| <= cap then es else es[..cap]
  }

  predicate Queried(q: Query, s: ShardId) { s == q.ring || s in q.shadows }

  predicate SeenOn(w: World, q: Query, shards: seq<ShardId>, k: Key) {
    exists s | s in shards :: s in w.up && k in Head(w, s, Cap(q))
  }

  predicate Candidate(w: World, q: Query, k: Key) { SeenOn(w, q, [q.ring] + q.shadows, k) }

  /** A base row that cannot be read is skipped like a deleted one. */
  predicate Readable(w: World, k: Key) { k in w.routes && w.routes[k] in w.up }

  predicate Returnable(w: World, q: Query, k: Key) { Readable(w, k) && Live(w, q, k) }

  function Found(w: World, q: Query): set<Key> { set k | k in w.routes && Returnable(w, q, k) && Candidate(w, q, k) }

  // ---- an answer ----

  ghost predicate Sorted(keys: seq<Key>) { forall i, j | 0 <= i < j < |keys| :: UnitsLess(keys[i], keys[j]) }

  /** The first `limit` of these keys in the gateway's order. */
  ghost predicate FirstOf(keys: seq<Key>, wanted: set<Key>, limit: nat) {
    && Sorted(keys) && |keys| <= limit
    && (forall k | k in keys :: k in wanted)
    && (forall k | k in wanted && k !in keys :: |keys| == limit && AllBefore(keys, k))
  }

  ghost predicate AllBefore(keys: seq<Key>, k: Key) { forall j | j in keys :: UnitsLess(j, k) }

  // ---- sorting ----

  function Insert(k: Key, keys: seq<Key>): seq<Key> {
    if keys == [] || UnitsLess(k, keys[0]) then [k] + keys else [keys[0]] + Insert(k, keys[1..])
  }

  function Sort(keys: seq<Key>): seq<Key> { if keys == [] then [] else Insert(keys[0], Sort(keys[1..])) }

  ghost predicate Distinct(keys: seq<Key>) { forall i, j | 0 <= i < j < |keys| :: keys[i] != keys[j] }

  lemma {:induction false} InsertKeeps(k: Key, keys: seq<Key>)
    requires Sorted(keys) && k !in keys
    ensures Sorted(Insert(k, keys)) && forall x :: x in Insert(k, keys) <==> x == k || x in keys
  {
    if keys == [] {
    } else if UnitsLess(k, keys[0]) {
      forall x | x in keys ensures UnitsLess(k, x) {
        if x != keys[0] { UnitsTotalOrder(k, keys[0], x); }
      }
    } else {
      UnitsTotalOrder(k, keys[0], k);
      InsertKeeps(k, keys[1..]);
      var rest := Insert(k, keys[1..]);
      forall x | x in rest ensures UnitsLess(keys[0], x) {}
    }
  }

  lemma {:induction false} SortKeeps(keys: seq<Key>)
    requires Distinct(keys)
    ensures Sorted(Sort(keys)) && forall x :: x in Sort(keys) <==> x in keys
  {
    if keys != [] {
      SortKeeps(keys[1..]);
      InsertKeeps(keys[0], Sort(keys[1..]));
    }
  }

  // ---- the lookup ----

  /** Gather candidates shard by shard; only the ring shard must answer. */
  method Gather(w: World, q: Query) returns (r: Option<seq<Key>>)
    ensures r.None? <==> q.ring !in w.up
    ensures r.Some? ==> Distinct(r.value) && forall k :: k in r.value <==> Candidate(w, q, k)
  {
    var shards := [q.ring] + q.shadows;
    var seen: seq<Key> := [];
    for i := 0 to |shards|
      invariant i > 0 ==> q.ring in w.up
      invariant Distinct(seen)
      invariant forall k :: k in seen <==> SeenOn(w, q, shards[..i], k)
    {
      var s := shards[i];
      assert shards[..i + 1] == shards[..i] + [s];
      if s !in w.up {
        if s == q.ring { return None; }
        continue;
      }
      ghost var before := seen;
      var page := Head(w, s, Cap(q));
      for j := 0 to |page|
        invariant Distinct(seen)
        invariant forall k :: k in seen <==> k in before || k in page[..j]
      {
        assert page[..j + 1] == page[..j] + [page[j]];
        if page[j] !in seen { seen := seen + [page[j]]; }
      }
      assert page[..|page|] == page;
    }
    assert shards[..|shards|] == shards;
    return Some(seen);
  }

  /** Read one candidate's row where it lives now and check it still matches. */
  method Hydrate(w: World, q: Query, k: Key) returns (row: Option<Row>)
    ensures row.Some? <==> Returnable(w, q, k)
    ensures row.Some? ==> row == Current(w, k) && Matches(q, row.value)
  {
    if k !in w.routes { return None; }
    var shard := w.routes[k];
    if shard !in w.up || shard !in w.bases || k !in w.bases[shard] { return None; }
    var found := w.bases[shard][k];
    for i := 0 to |q.columns|
      invariant forall c | c in q.columns[..i] :: c in found && c in q.values && found[c] == q.values[c]
    {
      var c := q.columns[i];
      assert q.columns[..i + 1] == q.columns[..i] + [c];
      if c !in found || c !in q.values || found[c] != q.values[c] { assert !Matches(q, found); return None; }
    }
    assert q.columns[..|q.columns|] == q.columns;
    return Some(found);
  }

  /** Every returned row is current and matches, and the keys are the first of what was
      found - stale entries, evacuation duplicates and unreadable rows left out. */
  method IndexQueryCore(w: World, q: Query) returns (rows: Option<seq<(Key, Row)>>)
    requires q.limit >= 1
    ensures rows.None? <==> q.ring !in w.up
    ensures rows.Some? ==> forall r | r in rows.value :: Current(w, r.0) == Some(r.1) && Matches(q, r.1)
    ensures rows.Some? ==> FirstOf(KeysOf(rows.value), Found(w, q), q.limit)
  {
    var gathered := Gather(w, q);
    if gathered.None? { return None; }
    SortKeeps(gathered.value);
    var own := Sort(gathered.value);
    var taken: seq<(Key, Row)> := [];
    var i := 0;
    while i < |own| && |taken| < q.limit
      invariant 0 <= i <= |own| && |taken| <= q.limit
      invariant forall r | r in taken :: Current(w, r.0) == Some(r.1) && Matches(q, r.1)
      invariant Sorted(KeysOf(taken))
      invariant forall k :: k in KeysOf(taken) <==> k in own[..i] && Returnable(w, q, k)
    {
      var row := Hydrate(w, q, own[i]);
      assert own[..i + 1] == own[..i] + [own[i]];
      if row.Some? {
        forall k | k in KeysOf(taken) ensures UnitsLess(k, own[i]) { assert k in own[..i]; }
        AppendKeepsSorted(KeysOf(taken), own[i]);
        assert KeysOf(taken + [(own[i], row.value)]) == KeysOf(taken) + [own[i]];
        taken := taken + [(own[i], row.value)];
      }
      i := i + 1;
    }
    CutIsFirst(own, i, KeysOf(taken), Found(w, q), q.limit);
    return Some(taken);
  }

  /** A sorted walk that collects what is wanted and stops at the limit. */
  lemma CutIsFirst(own: seq<Key>, i: nat, keys: seq<Key>, wanted: set<Key>, limit: nat)
    requires Sorted(own) && i <= |own| && (forall k | k in wanted :: k in own)
    requires Sorted(keys) && |keys| <= limit && forall k :: k in keys <==> k in own[..i] && k in wanted
    requires i < |own| ==> |keys| == limit
    ensures FirstOf(keys, wanted, limit)
  {
    forall k | k in wanted && k !in keys ensures |keys| == limit && AllBefore(keys, k) {
      var n :| 0 <= n < |own| && own[n] == k;
      assert forall m | 0 <= m < i :: own[m] in own[..i];
      forall j | j in keys ensures UnitsLess(j, k) { assert j in own[..i]; }
    }
  }

  lemma AppendKeepsSorted(keys: seq<Key>, k: Key)
    requires Sorted(keys) && AllBefore(keys, k)
    ensures Sorted(keys + [k])
  {
  }

  function KeysOf(rows: seq<(Key, Row)>): (keys: seq<Key>)
    ensures |keys| == |rows|
  {
    seq(|rows|, i requires 0 <= i < |rows| => rows[i].0)
  }

  // ---- the answer is determined ----

  function SetOf(keys: seq<Key>): set<Key> { set k | k in keys }

  lemma {:induction false} SortedSize(keys: seq<Key>)
    requires Sorted(keys)
    ensures |SetOf(keys)| == |keys|
  {
    if keys != [] {
      var last := keys[|keys| - 1];
      SortedSize(keys[..|keys| - 1]);
      if last in keys[..|keys| - 1] {
        var i :| 0 <= i < |keys| - 1 && keys[i] == last;
        UnitsTotalOrder(last, last, last);
      }
      assert SetOf(keys) == SetOf(keys[..|keys| - 1]) + {last};
    }
  }

  lemma SmallerSet(a: set<Key>, b: set<Key>)
    requires a <= b
    ensures |a| <= |b| && (a != b ==> |a| < |b|)
  {
    assert b == a + (b - a);
  }

  /** Of two sorted lists of which the longer misses a key of the other. */
  lemma SomeOther(xs: seq<Key>, ys: seq<Key>, k: Key) returns (y: Key)
    requires Sorted(xs) && Sorted(ys) && |xs| <= |ys| && k in xs && k !in ys
    ensures y in ys && y !in xs
  {
    SortedSize(xs);
    SortedSize(ys);
    assert k in SetOf(xs) && k !in SetOf(ys);
    if SetOf(ys) <= SetOf(xs) { SmallerSet(SetOf(ys), SetOf(xs)); }
    y :| y in SetOf(ys) && y !in SetOf(xs);
  }

  lemma {:induction false} SortedIsUnique(xs: seq<Key>, ys: seq<Key>)
    requires Sorted(xs) && Sorted(ys) && SetOf(xs) == SetOf(ys)
    ensures xs == ys
  {
    SortedSize(xs);
    SortedSize(ys);
    if xs != [] {
      var x, y := xs[|xs| - 1], ys[|ys| - 1];
      assert x in SetOf(ys) && y in SetOf(xs);
      UnitsTotalOrder(x, y, x);
      assert x == y;
      var xs', ys' := xs[..|xs| - 1], ys[..|ys| - 1];
      assert SetOf(xs') == SetOf(xs) - {x} by { NotBefore(xs); }
      assert SetOf(ys') == SetOf(ys) - {y} by { NotBefore(ys); }
      SortedIsUnique(xs', ys');
      assert xs == xs' + [x] && ys == ys' + [y];
    }
  }

  lemma NotBefore(keys: seq<Key>)
    requires Sorted(keys) && keys != []
    ensures keys[|keys| - 1] !in keys[..|keys| - 1]
  {
    UnitsTotalOrder(keys[|keys| - 1], keys[|keys| - 1], keys[|keys| - 1]);
  }

  lemma MissesNothing(a: seq<Key>, b: seq<Key>, wanted: set<Key>, limit: nat, k: Key)
    requires FirstOf(a, wanted, limit) && FirstOf(b, wanted, limit) && k in a
    ensures k in b
  {
    if k !in b {
      assert |b| == limit && AllBefore(b, k);
      var j := SomeOther(a, b, k);
      assert AllBefore(a, j);
      UnitsTotalOrder(j, k, j);
    }
  }

  lemma FirstOfIsUnique(a: seq<Key>, b: seq<Key>, wanted: set<Key>, limit: nat)
    requires FirstOf(a, wanted, limit) && FirstOf(b, wanted, limit)
    ensures a == b
  {
    forall k | k in a ensures k in b { MissesNothing(a, b, wanted, limit, k); }
    forall k | k in b ensures k in a { MissesNothing(b, a, wanted, limit, k); }
    SortedIsUnique(a, b);
  }

  // ---- when it is the full scan's answer ----

  function FoundBefore(w: World, q: Query, k: Key): set<Key> { set j | j in Found(w, q) && UnitsLess(j, k) }

  lemma FoundIsLive(w: World, q: Query)
    ensures Found(w, q) <= LiveKeys(w, q)
  {
  }

  /** What the lookup returns is exactly the full scan's first `limit` rows if and only if
      every live row it did not find comes after `limit` rows that it did find. */
  lemma ExactIff(w: World, q: Query, keys: seq<Key>)
    requires FirstOf(keys, Found(w, q), q.limit)
    ensures FirstOf(keys, LiveKeys(w, q), q.limit) <==>
      forall k | k in LiveKeys(w, q) - Found(w, q) :: |FoundBefore(w, q, k)| >= q.limit
  {
    if FirstOf(keys, LiveKeys(w, q), q.limit) {
      forall k | k in LiveKeys(w, q) - Found(w, q) ensures |FoundBefore(w, q, k)| >= q.limit { EnoughBefore(w, q, keys, k); }
    }
    if forall k | k in LiveKeys(w, q) - Found(w, q) :: |FoundBefore(w, q, k)| >= q.limit {
      forall k | k in LiveKeys(w, q) && k !in keys ensures |keys| == q.limit && AllBefore(keys, k) {
        if k !in Found(w, q) { BeyondTheCut(w, q, keys, k); }
      }
    }
  }

  lemma EnoughBefore(w: World, q: Query, keys: seq<Key>, k: Key)
    requires FirstOf(keys, Found(w, q), q.limit) && FirstOf(keys, LiveKeys(w, q), q.limit)
    requires k in LiveKeys(w, q) - Found(w, q)
    ensures |FoundBefore(w, q, k)| >= q.limit
  {
    assert k !in keys && AllBefore(keys, k);
    SortedSize(keys);
    SmallerSet(SetOf(keys), FoundBefore(w, q, k));
  }

  lemma BeyondTheCut(w: World, q: Query, keys: seq<Key>, k: Key)
    requires FirstOf(keys, Found(w, q), q.limit) && k !in Found(w, q)
    requires |FoundBefore(w, q, k)| >= q.limit
    ensures |keys| == q.limit && AllBefore(keys, k)
  {
    SortedSize(keys);
    var before := FoundBefore(w, q, k);
    if |keys| < q.limit {
      assert before <= SetOf(keys);
      SmallerSet(before, SetOf(keys));
    }
    forall r | r in keys ensures UnitsLess(r, k) {
      if !UnitsLess(r, k) {
        UnitsTotalOrder(k, r, k);
        forall j | j in before ensures j in SetOf(keys) && j != r {
          UnitsTotalOrder(j, k, r);
          UnitsTotalOrder(j, r, j);
          assert !AllBefore(keys, j);
        }
        assert before + {r} <= SetOf(keys);
        SmallerSet(before + {r}, SetOf(keys));
      }
    }
  }

  // ---- enough conditions ----

  /** Every live row has an entry on a queried shard: what the placement ring and its read
      shadows keep. */
  ghost predicate Covered(w: World, q: Query) {
    forall k | k in LiveKeys(w, q) :: exists s | s in [q.ring] + q.shadows :: k in Entries(w, s)
  }

  ghost predicate AllAnswer(w: World, q: Query) {
    (forall s | s in [q.ring] + q.shadows :: s in w.up) && (forall k | k in LiveKeys(w, q) :: Readable(w, k))
  }

  /** Nothing is cut on any shard: the lookup is the full scan. */
  lemma UnderTheCap(w: World, q: Query, keys: seq<Key>)
    requires FirstOf(keys, Found(w, q), q.limit) && Covered(w, q) && AllAnswer(w, q)
    requires forall s | s in [q.ring] + q.shadows :: |Entries(w, s)| <= Cap(q)
    ensures FirstOf(keys, LiveKeys(w, q), q.limit)
  {
    forall k | k in LiveKeys(w, q) ensures k in Found(w, q) {
      var s :| s in [q.ring] + q.shadows && k in Entries(w, s);
      assert k in Head(w, s, Cap(q));
    }
    assert Found(w, q) == LiveKeys(w, q);
  }

  function Stale(w: World, q: Query, s: ShardId): set<Key> { set k | k in Entries(w, s) && k !in LiveKeys(w, q) }

  ghost predicate PlainKeys(w: World, q: Query) {
    forall s | s in [q.ring] + q.shadows :: forall k | k in Entries(w, s) :: Plain(k)
  }

  /** The cap is five times the limit, so the lookup stays exact with any number of live
      entries and up to four times the limit of stale ones on each shard. */
  lemma StaleEntriesAreTolerated(w: World, q: Query, keys: seq<Key>)
    requires ValidWorld(w) && FirstOf(keys, Found(w, q), q.limit) && Covered(w, q) && AllAnswer(w, q) && PlainKeys(w, q)
    requires forall s | s in [q.ring] + q.shadows :: |Stale(w, q, s)| <= 4 * q.limit
    ensures FirstOf(keys, LiveKeys(w, q), q.limit)
  {
    forall k | k in LiveKeys(w, q) - Found(w, q) ensures |FoundBefore(w, q, k)| >= q.limit {
      var s :| s in [q.ring] + q.shadows && k in Entries(w, s);
      CutOff(w, q, s, k);
    }
    ExactIff(w, q, keys);
  }

  /** A live entry past the cap has five times the limit of entries before it. */
  lemma CutOff(w: World, q: Query, s: ShardId, k: Key)
    requires ValidWorld(w) && AllAnswer(w, q) && PlainKeys(w, q) && s in [q.ring] + q.shadows
    requires k in LiveKeys(w, q) && k !in Found(w, q) && k in Entries(w, s) && |Stale(w, q, s)| <= 4 * q.limit
    ensures |FoundBefore(w, q, k)| >= q.limit
  {
    var es, head := Entries(w, s), Head(w, s, Cap(q));
    assert Readable(w, k);
    assert k !in head;
    var n :| 0 <= n < |es| && es[n] == k;
    assert forall m | 0 <= m < |head| :: es[m] == head[m];
    assert |es| > Cap(q) && n >= Cap(q);
    AscendingSize(head);
    var live := SetOf(head) - Stale(w, q, s);
    forall j | j in live ensures j in FoundBefore(w, q, k) {
      var i :| 0 <= i < |head| && head[i] == j;
      assert es[i] == j && Less(j, k);
      PlainOrdersAgree(j, k);
      assert j in LiveKeys(w, q) && Readable(w, j) && Candidate(w, q, j);
    }
    LargeDifference(SetOf(head), Stale(w, q, s));
    SmallerSet(live, FoundBefore(w, q, k));
  }

  lemma LargeDifference(a: set<Key>, b: set<Key>)
    ensures |a - b| >= |a| - |b|
  {
    assert a == (a - b) + (a * b);
    SmallerSet(a * b, b);
  }

  lemma {:induction false} AscendingSize(keys: seq<Key>)
    requires Ascending(keys)
    ensures |SetOf(keys)| == |keys|
  {
    if keys != [] {
      var last := keys[|keys| - 1];
      AscendingSize(keys[..|keys| - 1]);
      BinaryTotalOrder(last, last, last);
      assert last !in keys[..|keys| - 1];
      assert SetOf(keys) == SetOf(keys[..|keys| - 1]) + {last};
    }
  }
}
