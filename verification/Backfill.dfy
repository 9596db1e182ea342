/** Copying by pages that remember where they stopped: what any number of ticks has copied,
    together with what lies beyond the cursor, is always one whole pass. */
module Backfill {
  import opened Basics
  import opened Collation
  import opened TableScan

  /** One table (or one shard) to walk: its keys in order, and what each is copied to. */
  datatype Stretch<K, V> = Stretch(keys: seq<Key>, items: map<Key, (K, V)>)

  ghost predicate Walkable<K, V>(st: Stretch<K, V>) {
    Ascending(st.keys) && forall k | k in st.keys :: k != "" && k in st.items
  }

  ghost predicate AllWalkable<K, V>(sts: seq<Stretch<K, V>>) { forall i | 0 <= i < |sts| :: Walkable(sts[i]) }

  // ---- importing is last-write-wins ----

  function Import<K, V>(to: map<K, V>, xs: seq<(K, V)>): map<K, V>
    decreases |xs|
  {
    if xs == [] then to else Import(to[xs[0].0 := xs[0].1], xs[1..])
  }

  lemma {:induction false} ImportConcat<K, V>(to: map<K, V>, xs: seq<(K, V)>, ys: seq<(K, V)>)
    ensures Import(to, xs + ys) == Import(Import(to, xs), ys)
    decreases |xs|
  {
    if xs == [] {
      assert xs + ys == ys;
    } else {
      ImportConcat(to[xs[0].0 := xs[0].1], xs[1..], ys);
      assert (xs + ys)[1..] == xs[1..] + ys;
    }
  }

  predicate Writes<K(==), V(==)>(xs: seq<(K, V)>, k: K) { exists x | x in xs :: x.0 == k }

  lemma {:induction false} ImportElsewhere<K, V>(to: map<K, V>, xs: seq<(K, V)>, k: K)
    requires !Writes(xs, k)
    ensures (k in Import(to, xs) <==> k in to) && (k in to ==> Import(to, xs)[k] == to[k])
    decreases |xs|
  {
    if xs != [] {
      assert xs[0] in xs;
      assert !Writes(xs[1..], k) by { forall x | x in xs[1..] ensures x.0 != k { assert x in xs; } }
      ImportElsewhere(to[xs[0].0 := xs[0].1], xs[1..], k);
    }
  }

  /** Where something is written, what was there before does not matter. */
  lemma {:induction false} ImportOverrides<K, V>(a: map<K, V>, b: map<K, V>, xs: seq<(K, V)>, k: K)
    requires Writes(xs, k)
    ensures k in Import(a, xs) && k in Import(b, xs) && Import(a, xs)[k] == Import(b, xs)[k]
    decreases |xs|
  {
    var a', b' := a[xs[0].0 := xs[0].1], b[xs[0].0 := xs[0].1];
    if Writes(xs[1..], k) {
      ImportOverrides(a', b', xs[1..], k);
    } else {
      ImportElsewhere(a', xs[1..], k);
      ImportElsewhere(b', xs[1..], k);
      var x :| x in xs && x.0 == k;
      assert xs == [xs[0]] + xs[1..];
    }
  }

  /** A pass that was cut off and starts over leaves what one pass leaves. */
  lemma ImportAgain<K, V>(to: map<K, V>, xs: seq<(K, V)>, n: nat)
    requires n <= |xs|
    ensures Import(Import(to, xs[..n]), xs) == Import(to, xs)
  {
    var once, twice := Import(to, xs), Import(Import(to, xs[..n]), xs);
    forall k | k in once.Keys ensures k in twice.Keys { ImportAgainAt(to, xs, n, k); }
    forall k | k in twice.Keys ensures k in once.Keys { ImportAgainAt(to, xs, n, k); }
    assert once.Keys == twice.Keys;
    forall k | k in once ensures once[k] == twice[k] { ImportAgainAt(to, xs, n, k); }
    assert once == twice;
  }

  lemma ImportAgainAt<K, V>(to: map<K, V>, xs: seq<(K, V)>, n: nat, k: K)
    requires n <= |xs|
    ensures var once, twice := Import(to, xs), Import(Import(to, xs[..n]), xs);
      (k in twice <==> k in once) && (k in once ==> twice[k] == once[k])
  {
    if Writes(xs, k) {
      ImportOverrides(to, Import(to, xs[..n]), xs, k);
    } else {
      assert !Writes(xs[..n], k) by { forall x | x in xs[..n] ensures x.0 != k { assert x in xs; } }
      ImportElsewhere(to, xs[..n], k);
      ImportElsewhere(to, xs, k);
      ImportElsewhere(Import(to, xs[..n]), xs, k);
    }
  }

  // ---- what lies beyond a position ----

  function ItemsAt<K, V>(st: Stretch<K, V>, keys: seq<Key>): seq<(K, V)>
    requires forall k | k in keys :: k in st.items
    ensures |ItemsAt(st, keys)| == |keys|
  {
    seq(|keys|, i requires 0 <= i < |keys| => assert keys[i] in keys; st.items[keys[i]])
  }

  ghost function Rest<K, V>(sts: seq<Stretch<K, V>>, at: nat, after: Key): seq<(K, V)>
    requires AllWalkable(sts)
    decreases |sts| - at
  {
    if at >= |sts| then []
    else
      assert Walkable(sts[at]);
      BeyondIsOwn(sts[at], after);
      ItemsAt(sts[at], Beyond(sts[at].keys, after)) + Rest(sts, at + 1, "")
  }

  lemma BeyondIsOwn<K, V>(st: Stretch<K, V>, after: Key)
    requires Walkable(st)
    ensures forall k | k in Beyond(st.keys, after) :: k in st.items
  {
    forall k | k in Beyond(st.keys, after) ensures k in st.items { BeyondMembers(st.keys, after, k); }
  }

  /** How many pages this many keys take: the last one is short, if only by being empty. */
  function Pages(n: nat, page: nat): nat
    requires page > 0
  {
    if n < page then 1 else 1 + Pages(n - page, page)
  }

  function PagesLeft<K, V>(sts: seq<Stretch<K, V>>, at: nat, after: Key, page: nat): nat
    requires page > 0
    decreases |sts| - at
  {
    if at >= |sts| then 0 else Pages(|Beyond(sts[at].keys, after)|, page) + PagesLeft(sts, at + 1, "", page)
  }

  function PageAt(keys: seq<Key>, after: Key, page: nat): seq<Key> {
    var beyond := Beyond(keys, after); if |beyond| <= page then beyond else beyond[..page]
  }

  /** A full page stays on its stretch, after its last key; a short one ends it. */
  function NextPosition<K, V>(sts: seq<Stretch<K, V>>, at: nat, after: Key, page: nat): (nat, Key)
    requires at < |sts| && page > 0
  {
    var keys := PageAt(sts[at].keys, after, page);
    if |keys| < page then (at + 1, "") else (at, keys[page - 1])
  }

  /** The beginning of a stretch: no key is before the empty cursor. */
  lemma FromTheStart<K, V>(st: Stretch<K, V>)
    requires Walkable(st)
    ensures Beyond(st.keys, "") == st.keys
  {
    forall k | k in st.keys ensures Less("", k) { EmptyIsLeast(k); }
    BeyondAll(st.keys, "");
  }

  lemma EmptyIsLeast(k: Key)
    requires k != ""
    ensures Less("", k)
  {
    BinaryAgreesWithScalars("", k);
  }

  lemma ItemsSplit<K, V>(st: Stretch<K, V>, keys: seq<Key>, n: nat)
    requires n <= |keys| && forall k | k in keys :: k in st.items
    ensures (forall k | k in keys[..n] :: k in st.items) && (forall k | k in keys[n..] :: k in st.items)
    ensures ItemsAt(st, keys) == ItemsAt(st, keys[..n]) + ItemsAt(st, keys[n..])
  {
    forall k | k in keys[..n] ensures k in st.items { assert k in keys; }
    forall k | k in keys[n..] ensures k in st.items { assert k in keys; }
  }

  /** One page takes its items off the front of the rest ... */
  lemma PageSplitsRest<K, V>(sts: seq<Stretch<K, V>>, at: nat, after: Key, page: nat)
    requires AllWalkable(sts) && at < |sts| && page > 0
    ensures var keys := PageAt(sts[at].keys, after, page); var next := NextPosition(sts, at, after, page);
      && (forall k | k in keys :: k in sts[at].items)
      && Rest(sts, at, after) == ItemsAt(sts[at], keys) + Rest(sts, next.0, next.1)
  {
    var st, beyond := sts[at], Beyond(sts[at].keys, after);
    assert Walkable(st);
    BeyondIsOwn(st, after);
    if |beyond| >= page {
      BeyondAdvance(st.keys, after, page);
      ItemsSplit(st, beyond, page);
      assert PageAt(st.keys, after, page) == beyond[..page];
      var later := Rest(sts, at + 1, "");
      assert (ItemsAt(st, beyond[..page]) + ItemsAt(st, beyond[page..])) + later
        == ItemsAt(st, beyond[..page]) + (ItemsAt(st, beyond[page..]) + later);
    }
  }

  /** ... and one off the pages left. */
  lemma PageCounts<K, V>(sts: seq<Stretch<K, V>>, at: nat, after: Key, page: nat)
    requires AllWalkable(sts) && at < |sts| && page > 0
    ensures var next := NextPosition(sts, at, after, page);
      PagesLeft(sts, at, after, page) == 1 + PagesLeft(sts, next.0, next.1, page)
  {
    var beyond := Beyond(sts[at].keys, after);
    assert Walkable(sts[at]);
    if |beyond| >= page {
      BeyondAdvance(sts[at].keys, after, page);
    }
  }

  // ---- in between pages ----

  /** What was done is imported, what is left is still ahead. */
  ghost predicate Walked<K(!new), V(!new)>(sts: seq<Stretch<K, V>>, before: map<K, V>, ahead: seq<(K, V)>, target: map<K, V>,
                                           done: seq<(K, V)>, at: nat, after: Key)
    requires AllWalkable(sts)
  {
    ahead == done + Rest(sts, at, after) && target == Import(before, done)
  }

  lemma PageKeepsWalked<K(!new), V(!new)>(sts: seq<Stretch<K, V>>, before: map<K, V>, ahead: seq<(K, V)>, target: map<K, V>,
                                          done: seq<(K, V)>, at: nat, after: Key, page: nat)
    requires AllWalkable(sts) && at < |sts| && page > 0 && Walked(sts, before, ahead, target, done, at, after)
    ensures var keys := PageAt(sts[at].keys, after, page); var next := NextPosition(sts, at, after, page);
      && (forall k | k in keys :: k in sts[at].items)
      && Walked(sts, before, ahead, Import(target, ItemsAt(sts[at], keys)), done + ItemsAt(sts[at], keys), next.0, next.1)
  {
    PageSplitsRest(sts, at, after, page);
    var items, next := ItemsAt(sts[at], PageAt(sts[at].keys, after, page)), NextPosition(sts, at, after, page);
    ImportConcat(before, done, items);
    assert done + (items + Rest(sts, next.0, next.1)) == (done + items) + Rest(sts, next.0, next.1);
  }

  lemma WalkedSum<K(!new), V(!new)>(sts: seq<Stretch<K, V>>, before: map<K, V>, ahead: seq<(K, V)>, target: map<K, V>,
                                    done: seq<(K, V)>, at: nat, after: Key)
    requires AllWalkable(sts) && Walked(sts, before, ahead, target, done, at, after)
    ensures Import(target, Rest(sts, at, after)) == Import(before, ahead) && |ahead| == |done| + |Rest(sts, at, after)|
    ensures at >= |sts| ==> target == Import(before, ahead) && |ahead| == |done|
  {
    ImportConcat(before, done, Rest(sts, at, after));
  }

  lemma WalkedAgain<K(!new), V(!new)>(sts: seq<Stretch<K, V>>, before: map<K, V>, ahead: seq<(K, V)>, target: map<K, V>,
                                      done: seq<(K, V)>, at: nat, after: Key)
    requires AllWalkable(sts) && Walked(sts, before, ahead, target, done, at, after)
    ensures Import(target, ahead) == Import(before, ahead)
  {
    assert ahead[..|done|] == done;
    ImportAgain(before, ahead, |done|);
  }

  // ---- one whole pass ----

  ghost function Everything<K, V>(sts: seq<Stretch<K, V>>): seq<(K, V)>
    requires AllWalkable(sts)
  {
    Rest(sts, 0, "")
  }

  /** Some key of some stretch from here on is copied to this. */
  ghost predicate IsItem<K, V>(st: Stretch<K, V>, x: (K, V)) { exists k | k in st.keys :: k in st.items && st.items[k] == x }

  lemma ItemsAreItems<K, V>(st: Stretch<K, V>, x: (K, V))
    requires Walkable(st)
    ensures x in ItemsAt(st, st.keys) <==> IsItem(st, x)
  {
    var here := ItemsAt(st, st.keys);
    if IsItem(st, x) {
      var k :| k in st.keys && k in st.items && st.items[k] == x;
      var i :| 0 <= i < |st.keys| && st.keys[i] == k;
      assert here[i] == x;
    }
    if x in here {
      var i :| 0 <= i < |here| && here[i] == x;
      assert st.keys[i] in st.keys;
    }
  }

  /** A whole pass writes exactly the items of all keys of all stretches. */
  lemma {:induction false} EverythingIsWritten<K, V>(sts: seq<Stretch<K, V>>, at: nat, x: (K, V))
    requires AllWalkable(sts)
    ensures x in Rest(sts, at, "") <==> exists i | at <= i < |sts| :: IsItem(sts[i], x)
    decreases |sts| - at
  {
    if at < |sts| {
      assert Walkable(sts[at]);
      FromTheStart(sts[at]);
      ItemsAreItems(sts[at], x);
      EverythingIsWritten(sts, at + 1, x);
    }
  }

  // ---- what one pass leaves ----

  ghost predicate Hits<K(!new), V(!new)>(st: Stretch<K, V>, key: K) { exists k | k in st.keys :: k in st.items && st.items[k].0 == key }

  /** Different keys of this stretch are copied to different places. */
  ghost predicate Injective<K(!new), V(!new)>(st: Stretch<K, V>) {
    forall k, l | k in st.keys && l in st.keys && k in st.items && l in st.items && st.items[k].0 == st.items[l].0 :: k == l
  }

  lemma ItemsHit<K(!new), V(!new)>(st: Stretch<K, V>, key: K)
    requires Walkable(st)
    ensures Writes(ItemsAt(st, st.keys), key) ==> Hits(st, key)
  {
    var here := ItemsAt(st, st.keys);
    if Writes(here, key) {
      var x :| x in here && x.0 == key;
      ItemsAreItems(st, x);
      var k :| k in st.keys && k in st.items && st.items[k] == x;
    }
  }

  lemma {:induction false} UnhitStays<K(!new), V(!new)>(sts: seq<Stretch<K, V>>, at: nat, to: map<K, V>, key: K)
    requires AllWalkable(sts) && forall j | at <= j < |sts| :: !Hits(sts[j], key)
    ensures var after := Import(to, Rest(sts, at, "")); (key in after <==> key in to) && (key in to ==> after[key] == to[key])
    decreases |sts| - at
  {
    if at < |sts| {
      assert Walkable(sts[at]);
      FromTheStart(sts[at]);
      var here := ItemsAt(sts[at], sts[at].keys);
      ItemsHit(sts[at], key);
      ImportElsewhere(to, here, key);
      ImportConcat(to, here, Rest(sts, at + 1, ""));
      UnhitStays(sts, at + 1, Import(to, here), key);
    }
  }

  /** An item written by one key only is what the import leaves. */
  lemma {:induction false} OnlyWriter<K, V>(to: map<K, V>, xs: seq<(K, V)>, i: nat)
    requires i < |xs| && forall j | i < j < |xs| :: xs[j].0 != xs[i].0
    ensures xs[i].0 in Import(to, xs) && Import(to, xs)[xs[i].0] == xs[i].1
    decreases |xs|
  {
    var to' := to[xs[0].0 := xs[0].1];
    if i == 0 {
      assert !Writes(xs[1..], xs[0].0);
      ImportElsewhere(to', xs[1..], xs[0].0);
    } else {
      OnlyWriter(to', xs[1..], i - 1);
    }
  }

  lemma StretchLeaves<K(!new), V(!new)>(st: Stretch<K, V>, to: map<K, V>, k: Key)
    requires Walkable(st) && Injective(st) && k in st.keys
    ensures var after := Import(to, ItemsAt(st, st.keys)); st.items[k].0 in after && after[st.items[k].0] == st.items[k].1
  {
    var i :| 0 <= i < |st.keys| && st.keys[i] == k;
    forall j | i < j < |st.keys| ensures st.items[st.keys[j]].0 != st.items[k].0 {
      BinaryTotalOrder(k, st.keys[j], k);
      assert st.keys[j] in st.keys;
    }
    OnlyWriter(to, ItemsAt(st, st.keys), i);
  }

  /** The last stretch that writes to a place decides what is there. */
  lemma {:induction false} LastWriterWins<K(!new), V(!new)>(sts: seq<Stretch<K, V>>, at: nat, to: map<K, V>, i: nat, k: Key)
    requires AllWalkable(sts) && at <= i < |sts| && Injective(sts[i]) && k in sts[i].keys
    requires Walkable(sts[i]) && forall j | i < j < |sts| :: !Hits(sts[j], sts[i].items[k].0)
    ensures var after := Import(to, Rest(sts, at, "")); sts[i].items[k].0 in after && after[sts[i].items[k].0] == sts[i].items[k].1
    decreases |sts| - at
  {
    assert Walkable(sts[at]);
    FromTheStart(sts[at]);
    var here := ItemsAt(sts[at], sts[at].keys);
    ImportConcat(to, here, Rest(sts, at + 1, ""));
    if at < i {
      LastWriterWins(sts, at + 1, Import(to, here), i, k);
    } else {
      StretchLeaves(sts[i], to, k);
      UnhitStays(sts, at + 1, Import(to, here), sts[i].items[k].0);
    }
  }
}
