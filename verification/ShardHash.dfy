/** The 32-bit string hash that places index entries, and the choice of a substitute. */
module ShardHash {
  import opened Basics

  type CodeUnit = n: nat | n < 0x10000

  /** A string as its UTF-16 code units. */
  type Text = seq<CodeUnit>

  const FNV_OFFSET: bv32 := 0x811c9dc5
  const FNV_PRIME: bv32 := 0x01000193

  /** The hash of a prefix, extended by one code unit; the product wraps at 32 bits. */
  function Mix(h: bv32, unit: CodeUnit): bv32 { (h ^ (unit as bv32)) * FNV_PRIME }

  function Fold(s: Text): bv32 { if s == [] then FNV_OFFSET else Mix(Fold(s[..|s| - 1]), s[|s| - 1]) }

  /** The folded bits read as an unsigned number. */
  function Hash(s: Text): nat { Fold(s) as int }

  method HashKey(input: Text) returns (hash: nat)
    ensures hash == Hash(input)
  {
    var h := FNV_OFFSET;
    for i := 0 to |input|
      invariant h == Fold(input[..i])
    {
      assert input[..i + 1][..i] == input[..i];
      h := Mix(h, input[i]);
    }
    assert input[..|input|] == input;
    hash := h as int;
  }

  // ---- placement ----

  const COLON: Text := [58]

  /** Where an entry with this key lives, by the index's pinned ring. */
  function IndexShardForKey(table: Text, indexName: Text, indexKeyJson: Text, ring: seq<Text>): Text
    requires ring != []
  {
    ring[Hash(table + COLON + indexName + COLON + indexKeyJson) % |ring|]
  }

  // ---- the order of strings ----

  /** The comparison of strings by code units. */
  predicate Before(a: Text, b: Text) {
    if b == [] then false
    else if a == [] then true
    else if a[0] != b[0] then a[0] < b[0]
    else Before(a[1..], b[1..])
  }

  lemma {:induction false} BeforeIsTotal(a: Text, b: Text)
    ensures a == b <==> !Before(a, b) && !Before(b, a)
    ensures !(Before(a, b) && Before(b, a))
  {
    if a != [] && b != [] && a[0] == b[0] {
      BeforeIsTotal(a[1..], b[1..]);
      assert a == [a[0]] + a[1..] && b == [b[0]] + b[1..];
    }
  }

  lemma {:induction false} BeforeIsTransitive(a: Text, b: Text, c: Text)
    requires Before(a, b) && Before(b, c)
    ensures Before(a, c)
  {
    if a != [] && a[0] == b[0] && b[0] == c[0] { BeforeIsTransitive(a[1..], b[1..], c[1..]); }
  }

  // ---- the substitute ----

  function Score(indexName: Text, shard: Text): nat { Hash(indexName + COLON + shard) }

  /** Smaller hash first, ties by name. */
  predicate Preferred(indexName: Text, a: Text, b: Text) {
    Score(indexName, a) < Score(indexName, b) || (Score(indexName, a) == Score(indexName, b) && Before(a, b))
  }

  function SetOf(candidates: seq<Text>): set<Text> { set c | c in candidates }

  ghost predicate IsBest(indexName: Text, best: Text, candidates: set<Text>) {
    best in candidates && forall c | c in candidates && c != best :: Preferred(indexName, best, c)
  }

  lemma PreferredIsTransitive(indexName: Text, a: Text, b: Text, c: Text)
    requires Preferred(indexName, a, b) && Preferred(indexName, b, c)
    ensures Preferred(indexName, a, c)
  {
    if Before(a, b) && Before(b, c) { BeforeIsTransitive(a, b, c); }
  }

  /** The least candidate by (hash, name); nothing exactly when there is no candidate. */
  method PickRingSubstitute(indexName: Text, candidates: seq<Text>) returns (best: Option<Text>)
    ensures best.None? <==> candidates == []
    ensures best.Some? ==> IsBest(indexName, best.value, SetOf(candidates))
  {
    best := None;
    var bestHash := 0;
    for i := 0 to |candidates|
      invariant best.None? <==> i == 0
      invariant best.Some? ==> bestHash == Score(indexName, best.value)
      invariant best.Some? ==> IsBest(indexName, best.value, SetOf(candidates[..i]))
    {
      var shard := candidates[i];
      var h := HashKey(indexName + COLON + shard);
      ghost var seen := SetOf(candidates[..i]);
      assert SetOf(candidates[..i + 1]) == seen + {shard};
      if best.None? || h < bestHash || (h == bestHash && Before(shard, best.value)) {
        if best.Some? { NewBest(indexName, best.value, shard, seen); }
        best, bestHash := Some(shard), h;
      } else {
        BeforeIsTotal(shard, best.value);
      }
    }
    assert candidates[..|candidates|] == candidates;
  }

  lemma NewBest(indexName: Text, best: Text, shard: Text, seen: set<Text>)
    requires IsBest(indexName, best, seen) && Preferred(indexName, shard, best)
    ensures IsBest(indexName, shard, seen + {shard})
  {
    forall c | c in seen && c != shard && c != best ensures Preferred(indexName, shard, c) {
      PreferredIsTransitive(indexName, shard, best, c);
    }
  }

  /** So the choice depends on the set of candidates alone: whoever computes it, in
      whatever order and with whatever repetitions, picks the same shard. */
  lemma SubstituteIsDeterministic(indexName: Text, a: Text, b: Text, candidates: set<Text>)
    requires IsBest(indexName, a, candidates) && IsBest(indexName, b, candidates)
    ensures a == b
  {
    if a != b {
      assert Preferred(indexName, a, b) && Preferred(indexName, b, a);
      BeforeIsTotal(a, b);
    }
  }

  // ---- known values ----

  /** The hash is FNV-1a over 32 bits: its published values, and a code unit of two bytes. */
  lemma KnownHashes()
    ensures Hash([]) == 0x811c9dc5
    ensures Hash([97]) == 0xe40c292c
    ensures Hash([98]) == 0xe70c2de5
    ensures Hash([0xffff]) == 0x79aea14e
  {
    assert [97][..0] == [] && [98][..0] == [] && [0xffff][..0] == [];
    assert Fold([97]) == (FNV_OFFSET ^ 97) * FNV_PRIME == 0xe40c292c;
    assert Fold([98]) == (FNV_OFFSET ^ 98) * FNV_PRIME == 0xe70c2de5;
    assert Fold([0xffff]) == (FNV_OFFSET ^ 0xffff) * FNV_PRIME == 0x79aea14e;
  }

  /** Of two shards the one with the smaller hash of index and name is the substitute. */
  lemma KnownSubstitute(indexName: Text, a: Text, b: Text)
    requires Hash(indexName + [58] + a) < Hash(indexName + [58] + b)
    ensures IsBest(indexName, a, {a, b})
  {
  }
}
