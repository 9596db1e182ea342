/** SQLite's BINARY collation as the gateway recomputes it: strings are compared
    byte by byte through their UTF-8 encoding. A Dafny `string` is a sequence of
    Unicode scalar values, which is what a well-formed JavaScript string denotes. */
module Collation {

  type Byte = b: int | 0 <= b < 256

  /** The UTF-8 encoding of one scalar value (section 3 of RFC 3629). */
  function EncodeChar(c: char): (bs: seq<Byte>)
    ensures 1 <= |bs| <= 4
  {
    var u := c as int;
    if u < 0x80 then [u]
    else if u < 0x800 then [0xC0 + u / 64, 0x80 + u % 64]
    else if u < 0x10000 then [0xE0 + u / 64 / 64, 0x80 + u / 64 % 64, 0x80 + u % 64]
    else [0xF0 + u / 64 / 64 / 64, 0x80 + u / 64 / 64 % 64, 0x80 + u / 64 % 64, 0x80 + u % 64]
  }

  function Utf8(s: string): (bs: seq<Byte>)
  {
    if s == [] then [] else EncodeChar(s[0]) + Utf8(s[1..])
  }

  function Units(s: string): (us: seq<int>)
    ensures |us| == |s|
  {
    seq(|s|, i requires 0 <= i < |s| => s[i] as int)
  }

  /** Lexicographic comparison in the memcmp convention: the sign decides. */
  function CompareSeq(x: seq<int>, y: seq<int>): int
  {
    if x == [] || y == [] then |x| - |y|
    else if x[0] != y[0] then x[0] - y[0]
    else CompareSeq(x[1..], y[1..])
  }

  function Sign(n: int): int { if n < 0 then -1 else if n > 0 then 1 else 0 }

  /** Code-point order: what the byte comparison is claimed to agree with. */
  function CompareScalars(a: string, b: string): int { CompareSeq(Units(a), Units(b)) }

  function CompareBinary(a: string, b: string): int { CompareSeq(Utf8(a), Utf8(b)) }

  predicate Less(a: string, b: string) { CompareBinary(a, b) < 0 }

  /** The loop of compareBinaryCollation. */
  method CompareBinaryCollation(a: string, b: string) returns (r: int)
    ensures r == CompareBinary(a, b)
    ensures Sign(r) == Sign(CompareScalars(a, b))
    ensures r == 0 <==> a == b
  {
    BinaryAgreesWithScalars(a, b);
    BinaryZeroIffEqual(a, b);
    var bytesA: seq<int>, bytesB: seq<int> := Utf8(a), Utf8(b);
    var len := if |bytesA| < |bytesB| then |bytesA| else |bytesB|;
    var i := 0;
    while i < len
      invariant 0 <= i <= len
      invariant CompareBinary(a, b) == CompareSeq(bytesA[i..], bytesB[i..])
    {
      if bytesA[i] != bytesB[i] { return bytesA[i] - bytesB[i]; }
      assert bytesA[i..][1..] == bytesA[i + 1..] && bytesB[i..][1..] == bytesB[i + 1..];
      i := i + 1;
    }
    return |bytesA| - |bytesB|;
  }

  // ---- lexicographic comparison is a total order on integer sequences ----

  lemma {:induction false} CompareSeqZero(x: seq<int>, y: seq<int>)
    ensures CompareSeq(x, y) == 0 <==> x == y
  {
    if x != [] && y != [] && x[0] == y[0] {
      CompareSeqZero(x[1..], y[1..]);
      assert x == [x[0]] + x[1..] && y == [y[0]] + y[1..];
    }
  }

  lemma {:induction false} CompareSeqAntisymmetric(x: seq<int>, y: seq<int>)
    ensures CompareSeq(x, y) == -CompareSeq(y, x)
  {
    if x != [] && y != [] && x[0] == y[0] { CompareSeqAntisymmetric(x[1..], y[1..]); }
  }

  lemma {:induction false} CompareSeqTransitive(x: seq<int>, y: seq<int>, z: seq<int>)
    requires CompareSeq(x, y) <= 0 && CompareSeq(y, z) <= 0
    ensures CompareSeq(x, z) <= 0
    ensures CompareSeq(x, y) < 0 || CompareSeq(y, z) < 0 ==> CompareSeq(x, z) < 0
  {
    if x != [] && y != [] && z != [] && x[0] == y[0] == z[0] {
      CompareSeqTransitive(x[1..], y[1..], z[1..]);
    }
  }

  lemma {:induction false} CompareSeqCommonPrefix(p: seq<int>, x: seq<int>, y: seq<int>)
    ensures CompareSeq(p + x, p + y) == CompareSeq(x, y)
  {
    if p == [] {
      assert p + x == x && p + y == y;
    } else {
      assert (p + x)[1..] == p[1..] + x && (p + y)[1..] == p[1..] + y;
      CompareSeqCommonPrefix(p[1..], x, y);
    }
  }

  // ---- UTF-8 keeps code-point order ----

  /** The encoding of a smaller scalar is smaller at some byte both encodings have,
      so no continuation of either can change the outcome. */
  lemma EncodeCharOrder(c: char, d: char, x: seq<Byte>, y: seq<Byte>)
    requires c < d
    ensures CompareSeq(EncodeChar(c) + x, EncodeChar(d) + y) < 0
  {
    var p, q := EncodeChar(c), EncodeChar(d);
    var k := DifferAt(c, d);
    assert p + x == p[..k] + (p[k..] + x);
    assert q + y == p[..k] + (q[k..] + y);
    CompareSeqCommonPrefix(p[..k], p[k..] + x, q[k..] + y);
  }

  lemma DifferAt(c: char, d: char) returns (k: nat)
    requires c < d
    ensures k < |EncodeChar(c)| && k < |EncodeChar(d)|
    ensures EncodeChar(c)[..k] == EncodeChar(d)[..k]
    ensures EncodeChar(c)[k] < EncodeChar(d)[k]
  {
    var u, v := c as int, d as int;
    if |EncodeChar(c)| != |EncodeChar(d)| || u < 0x80 { k := 0; }
    else if v < 0x800 { BaseOrder(u, v); k := if u / 64 == v / 64 then 1 else 0; }
    else if v < 0x10000 { k := DifferAt3(c, d); }
    else { k := DifferAt4(c, d); }
  }

  lemma DifferAt3(c: char, d: char) returns (k: nat)
    requires c < d && 0x800 <= c as int && (d as int) < 0x10000
    ensures k < 3 && EncodeChar(c)[..k] == EncodeChar(d)[..k] && EncodeChar(c)[k] < EncodeChar(d)[k]
  {
    var u, v := c as int, d as int;
    BaseOrder(u, v);
    BaseOrder(u / 64, v / 64);
    k := if u / 64 == v / 64 then 2 else if u / 64 / 64 == v / 64 / 64 then 1 else 0;
  }

  lemma DifferAt4(c: char, d: char) returns (k: nat)
    requires c < d && 0x10000 <= c as int
    ensures k < 4 && EncodeChar(c)[..k] == EncodeChar(d)[..k] && EncodeChar(c)[k] < EncodeChar(d)[k]
  {
    var u, v := c as int, d as int;
    BaseOrder(u, v);
    BaseOrder(u / 64, v / 64);
    BaseOrder(u / 64 / 64, v / 64 / 64);
    var p, q := EncodeChar(c), EncodeChar(d);
    if u / 64 == v / 64 { k := 3; }
    else if u / 64 / 64 == v / 64 / 64 { assert p[0] == q[0] && p[1] == q[1]; k := 2; }
    else if u / 64 / 64 / 64 == v / 64 / 64 / 64 { assert p[0] == q[0]; k := 1; }
    else { k := 0; }
  }

  /** One base-64 digit of a smaller number. */
  lemma BaseOrder(u: nat, v: nat)
    ensures u < v ==> u / 64 <= v / 64
    ensures u < v && u / 64 == v / 64 ==> u % 64 < v % 64
    ensures u < v && u / 64 != v / 64 ==> u / 64 < v / 64
  {
  }

  lemma {:induction false} BinaryAgreesWithScalars(a: string, b: string)
    ensures Sign(CompareBinary(a, b)) == Sign(CompareScalars(a, b))
    ensures Sign(CompareSeq(Utf8(a), Utf8(b))) == Sign(CompareSeq(Units(a), Units(b)))
  {
    if a != [] && b != [] {
      assert Units(a)[1..] == Units(a[1..]) && Units(b)[1..] == Units(b[1..]);
      if a[0] == b[0] {
        CompareSeqCommonPrefix(EncodeChar(a[0]), Utf8(a[1..]), Utf8(b[1..]));
        BinaryAgreesWithScalars(a[1..], b[1..]);
      } else if a[0] < b[0] {
        EncodeCharOrder(a[0], b[0], Utf8(a[1..]), Utf8(b[1..]));
      } else {
        EncodeCharOrder(b[0], a[0], Utf8(b[1..]), Utf8(a[1..]));
        CompareSeqAntisymmetric(Utf8(a), Utf8(b));
      }
    }
  }

  lemma BinaryZeroIffEqual(a: string, b: string)
    ensures CompareBinary(a, b) == 0 <==> a == b
  {
    BinaryAgreesWithScalars(a, b);
    CompareSeqZero(Units(a), Units(b));
    if Units(a) == Units(b) {
      forall i | 0 <= i < |a| ensures a[i] == b[i] { assert Units(a)[i] == Units(b)[i]; }
      assert a == b;
    }
  }

  /** The collation is a strict total order on strings. */
  lemma BinaryTotalOrder(a: string, b: string, c: string)
    ensures !Less(a, a)
    ensures a != b ==> (Less(a, b) <==> !Less(b, a))
    ensures Less(a, b) && Less(b, c) ==> Less(a, c)
  {
    BinaryZeroIffEqual(a, a);
    BinaryZeroIffEqual(a, b);
    CompareSeqAntisymmetric(Utf8(a), Utf8(b));
    if Less(a, b) && Less(b, c) { CompareSeqTransitive(Utf8(a), Utf8(b), Utf8(c)); }
  }
}
