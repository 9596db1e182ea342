/** Two orders of the same keys: the store's, byte by byte through UTF-8, and the
    gateway's string comparison, code unit by code unit through UTF-16. */
module KeyOrder {
  import opened Collation

  type Key = string

  /** The UTF-16 encoding of one scalar value. */
  function EncodeUnits(c: char): (us: seq<int>)
    ensures 1 <= |us| <= 2
  {
    var u := c as int;
    if u < 0x10000 then [u] else [0xD800 + (u - 0x10000) / 1024, 0xDC00 + (u - 0x10000) % 1024]
  }

  function Utf16(s: string): seq<int> { if s == [] then [] else EncodeUnits(s[0]) + Utf16(s[1..]) }

  /** The comparison `a < b` of two JavaScript strings. */
  predicate UnitsLess(a: Key, b: Key) { CompareSeq(Utf16(a), Utf16(b)) < 0 }

  /** Different characters differ at a unit both encodings have: a lone unit is never the
      first half of a pair. */
  lemma UnitsDiffer(c: char, d: char, x: seq<int>, y: seq<int>)
    requires c != d
    ensures CompareSeq(EncodeUnits(c) + x, EncodeUnits(d) + y) != 0
  {
    var p, q := EncodeUnits(c) + x, EncodeUnits(d) + y;
    CompareSeqZero(p, q);
    assert p[0] == EncodeUnits(c)[0] && q[0] == EncodeUnits(d)[0];
    if c as int >= 0x10000 && d as int >= 0x10000 {
      assert p[1] == EncodeUnits(c)[1] && q[1] == EncodeUnits(d)[1];
      assert p[0] != q[0] || p[1] != q[1];
    } else {
      assert p[0] != q[0];
    }
  }

  lemma {:induction false} UnitsZeroIffEqual(a: Key, b: Key)
    ensures CompareSeq(Utf16(a), Utf16(b)) == 0 <==> a == b
  {
    CompareSeqZero(Utf16(a), Utf16(b));
    if a != [] && b != [] {
      if a[0] == b[0] {
        UnitsZeroIffEqual(a[1..], b[1..]);
        CompareSeqCommonPrefix(EncodeUnits(a[0]), Utf16(a[1..]), Utf16(b[1..]));
        assert a == [a[0]] + a[1..] && b == [b[0]] + b[1..];
      } else {
        UnitsDiffer(a[0], b[0], Utf16(a[1..]), Utf16(b[1..]));
      }
    }
  }

  /** The gateway's comparison is a strict total order too. */
  lemma UnitsTotalOrder(a: Key, b: Key, c: Key)
    ensures !UnitsLess(a, a)
    ensures a != b ==> (UnitsLess(a, b) <==> !UnitsLess(b, a))
    ensures UnitsLess(a, b) && UnitsLess(b, c) ==> UnitsLess(a, c)
  {
    UnitsZeroIffEqual(a, a);
    UnitsZeroIffEqual(a, b);
    CompareSeqAntisymmetric(Utf16(a), Utf16(b));
    if UnitsLess(a, b) && UnitsLess(b, c) { CompareSeqTransitive(Utf16(a), Utf16(b), Utf16(c)); }
  }

  /** Every character fits one code unit. */
  predicate Plain(s: string) { forall i | 0 <= i < |s| :: s[i] as int < 0x10000 }

  lemma {:induction false} PlainUnits(s: string)
    requires Plain(s)
    ensures Utf16(s) == Units(s)
  {
    if s != [] {
      PlainUnits(s[1..]);
      assert Units(s) == [s[0] as int] + Units(s[1..]);
    }
  }

  /** The orders agree on keys without supplementary characters ... */
  lemma PlainOrdersAgree(a: Key, b: Key)
    requires Plain(a) && Plain(b)
    ensures UnitsLess(a, b) <==> Less(a, b)
  {
    PlainUnits(a);
    PlainUnits(b);
    BinaryAgreesWithScalars(a, b);
  }

  /** ... and not on all keys: U+10000 sorts before U+E000 by code units, after it by bytes. */
  lemma OrdersDiffer()
    ensures UnitsLess("\U{10000}", "\U{E000}") && Less("\U{E000}", "\U{10000}")
  {
    var a, b := "\U{10000}", "\U{E000}";
    assert a[1..] == [] && b[1..] == [];
    assert Utf16(a) == [0xD800, 0xDC00] && Utf16(b) == [0xE000];
    BinaryAgreesWithScalars(b, a);
    assert Units(b)[0] == 0xE000 && Units(a)[0] == 0x10000;
  }
}
