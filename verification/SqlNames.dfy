/** White space, keywords and identifiers as the classifier reads them. */
module SqlNames {
  import opened Basics
  import opened SqlText

  /** What a regular expression's white-space class matches. */
  predicate IsSpace(c: char) {
    var n := c as int;
    9 <= n <= 13 || n == 0x20 || n == 0xA0 || n == 0x1680 || 0x2000 <= n <= 0x200A
    || n == 0x2028 || n == 0x2029 || n == 0x202F || n == 0x205F || n == 0x3000 || n == 0xFEFF
  }

  function SkipSpaces(s: string): (r: string)
    ensures |r| <= |s| && (r != "" ==> !IsSpace(r[0]))
  {
    if s != "" && IsSpace(s[0]) then SkipSpaces(s[1..]) else s
  }

  lemma {:induction false} SkipSpacesIsSuffix(s: string)
    ensures SkipSpaces(s) == s[|s| - |SkipSpaces(s)|..]
  {
    if s != "" && IsSpace(s[0]) { SkipSpacesIsSuffix(s[1..]); }
  }

  predicate AllSpaces(s: string) { forall i | 0 <= i < |s| :: IsSpace(s[i]) }

  lemma {:induction false} SkipSpacesOver(gap: string, s: string)
    requires AllSpaces(gap) && (s != "" ==> !IsSpace(s[0]))
    ensures SkipSpaces(gap + s) == s
  {
    if gap == "" {
      assert gap + s == s;
    } else {
      assert (gap + s)[1..] == gap[1..] + s;
      SkipSpacesOver(gap[1..], s);
    }
  }

  // ---- keywords ----

  function LowerChar(c: char): char { if 'A' <= c <= 'Z' then (c as int + 32) as char else c }

  function Lower(s: string): (r: string)
    ensures |r| == |s| && forall i | 0 <= i < |s| :: r[i] == LowerChar(s[i])
  {
    if s == "" then "" else [LowerChar(s[0])] + Lower(s[1..])
  }

  /** `s` starts with this lower-case word, in any case of letters. */
  predicate StartsWith(s: string, word: string) { |s| >= |word| && Lower(s[..|word|]) == word }

  lemma StartsWithSpelled(spelled: string, word: string, rest: string)
    requires Lower(spelled) == word
    ensures StartsWith(spelled + rest, word) && (spelled + rest)[|word|..] == rest
  {
    assert (spelled + rest)[..|word|] == spelled;
  }

  // ---- identifiers ----

  predicate IsLetter(c: char) { 'a' <= c <= 'z' || 'A' <= c <= 'Z' }

  predicate IsIdentStart(c: char) { IsLetter(c) || c == '_' || c as int >= 0x80 }

  predicate IsIdentChar(c: char) { IsIdentStart(c) || '0' <= c <= '9' || c == '$' }

  function IdentTail(s: string): (n: nat)
    ensures n <= |s|
  {
    if s != "" && IsIdentChar(s[0]) then 1 + IdentTail(s[1..]) else 0
  }

  predicate OpensName(c: char) { c == '"' || c == '`' || c == '[' }

  /** The token at the head of `s` after white space: its text, and what follows. */
  datatype Token = Token(raw: string, rest: string)

  function ReadName(s: string): (r: Option<Token>)
    ensures r.Some? ==> r.value.raw != "" && |r.value.rest| < |s|
  {
    var t := SkipSpaces(s);
    if t == "" then None
    else if OpensName(t[0]) then
      (if QuoteSpan(t).terminated then Some(Token(t[..QuoteSpan(t).length], t[QuoteSpan(t).length..])) else None)
    else if IsIdentStart(t[0]) then Some(Token(t[..1 + IdentTail(t[1..])], t[1 + IdentTail(t[1..])..]))
    else None
  }

  method SkipSpacesFrom(s: string, pos: nat) returns (p: nat)
    requires pos <= |s|
    ensures pos <= p <= |s| && SkipSpaces(s[pos..]) == s[p..] && (p < |s| ==> !IsSpace(s[p]))
  {
    p := pos;
    while p < |s| && IsSpace(s[p])
      invariant pos <= p <= |s|
      invariant SkipSpaces(s[pos..]) == SkipSpaces(s[p..])
    {
      assert s[p..][1..] == s[p + 1..];
      p := p + 1;
    }
  }

  method BareEnd(s: string, p: nat) returns (end: nat)
    requires p < |s|
    ensures p < end <= |s| && end == p + 1 + IdentTail(s[p..][1..])
  {
    end := p + 1;
    assert s[p..][1..] == s[end..];
    while end < |s| && IsIdentChar(s[end])
      invariant p < end <= |s|
      invariant 1 + IdentTail(s[p..][1..]) == end - p + IdentTail(s[end..])
    {
      assert s[end..][1..] == s[end + 1..];
      end := end + 1;
    }
  }

  method ReadIdentifierToken(s: string, pos: nat) returns (raw: Option<string>, next: nat)
    requires pos <= |s|
    ensures raw.Some? ==> pos < next <= |s| && ReadName(s[pos..]) == Some(Token(raw.value, s[next..]))
    ensures raw.None? ==> ReadName(s[pos..]).None?
  {
    var p := SkipSpacesFrom(s, pos);
    if p >= |s| { return None, p; }
    var c := s[p];
    var end := p;
    if OpensName(c) {
      var terminated;
      end, terminated := SkipQuoteSpan(s, p);
      if !terminated { return None, p; }
    } else {
      if !IsIdentStart(c) { return None, p; }
      end := BareEnd(s, p);
    }
    assert s[p..][..end - p] == s[p..end] && s[p..][end - p..] == s[end..];
    return Some(s[p..end]), end;
  }

  // ---- quoting ----

  function Doubled(name: string, q: char): string {
    if name == "" then "" else (if name[0] == q then [q, q] else [name[0]]) + Doubled(name[1..], q)
  }

  /** A name written as a quoted identifier; brackets have no escape. */
  function Quoted(open: char, name: string): string {
    [open] + (if open == '[' then name else Doubled(name, open)) + [CloseOf(open)]
  }

  predicate Quotable(open: char, name: string) { open == '[' ==> ']' !in name }

  /** Every doubled delimiter back to one. */
  function Halved(s: string, q: char): string
    decreases |s|
  {
    if s == "" then ""
    else if s[0] == q && |s| > 1 && s[1] == q then [q] + Halved(s[2..], q)
    else [s[0]] + Halved(s[1..], q)
  }

  function Unquote(tok: string): string {
    if |tok| >= 2 && (tok[0] == '"' || tok[0] == '`') && tok[|tok| - 1] == tok[0] then Halved(tok[1..|tok| - 1], tok[0])
    else if |tok| >= 2 && tok[0] == '[' && tok[|tok| - 1] == ']' then tok[1..|tok| - 1]
    else tok
  }

  /** Only doubled delimiters are halved. */
  lemma {:induction false} HalvedKeepsSingles(s: string, q: char)
    requires forall i | 0 <= i < |s| - 1 :: !(s[i] == q && s[i + 1] == q)
    ensures Halved(s, q) == s
  {
    if s != "" {
      var t := s[1..];
      forall i | 0 <= i < |t| - 1 ensures !(t[i] == q && t[i + 1] == q) { assert t[i] == s[i + 1] && t[i + 1] == s[i + 2]; }
      HalvedKeepsSingles(s[1..], q);
      assert s == [s[0]] + s[1..];
    }
  }

  /** A token that is not enclosed in a pair of its delimiters is its own name. */
  lemma BareIsItsName(tok: string)
    requires !(|tok| >= 2 && ((tok[0] == '"' && tok[|tok| - 1] == '"') || (tok[0] == '`' && tok[|tok| - 1] == '`') || (tok[0] == '[' && tok[|tok| - 1] == ']')))
    ensures Unquote(tok) == tok
  {
  }

  lemma {:induction false} DoubledSpan(name: string, q: char, rest: string)
    requires rest == "" || rest[0] != q
    ensures SpanTail(Doubled(name, q) + [q] + rest, q, true) == Span(|Doubled(name, q)| + 1, true)
  {
    var s := Doubled(name, q) + [q] + rest;
    if name == "" {
      assert s == [q] + rest;
    } else {
      DoubledSpan(name[1..], q, rest);
      var t := Doubled(name[1..], q) + [q] + rest;
      if name[0] == q { assert s == [q, q] + t && s[2..] == t; }
      else { assert s == [name[0]] + t && s[1..] == t; }
    }
  }

  lemma {:induction false} BracketSpan(name: string, rest: string)
    requires ']' !in name
    ensures SpanTail(name + "]" + rest, ']', false) == Span(|name| + 1, true)
  {
    var s := name + "]" + rest;
    if name != "" {
      BracketSpan(name[1..], rest);
      assert s[1..] == name[1..] + "]" + rest;
    }
  }

  /** A quoted span is exactly as long as it was written. */
  lemma QuotedSpan(open: char, name: string, rest: string)
    requires IsQuoteOpen(open) && Quotable(open, name) && (open == '[' || rest == "" || rest[0] != open)
    ensures QuoteSpan(Quoted(open, name) + rest) == Span(|Quoted(open, name)|, true)
  {
    var s := Quoted(open, name) + rest;
    if open == '[' {
      BracketSpan(name, rest);
      assert s[1..] == name + "]" + rest;
    } else {
      DoubledSpan(name, open, rest);
      assert s[1..] == Doubled(name, open) + [open] + rest;
    }
  }

  lemma {:induction false} HalvedDoubled(name: string, q: char)
    ensures Halved(Doubled(name, q), q) == name
  {
    if name != "" {
      HalvedDoubled(name[1..], q);
      var d := Doubled(name, q);
      if name[0] == q { assert d[2..] == Doubled(name[1..], q); }
      else { assert d[1..] == Doubled(name[1..], q); }
      assert name == [name[0]] + name[1..];
    }
  }

  /** Reading a quoted name and unquoting it gives the name back, whatever it contains
      and whatever follows, as long as that is not another delimiter. */
  lemma QuotedNameRoundTrip(open: char, name: string, gap: string, rest: string)
    requires OpensName(open) && Quotable(open, name) && AllSpaces(gap) && (open == '[' || rest == "" || rest[0] != open)
    ensures ReadName(gap + Quoted(open, name) + rest) == Some(Token(Quoted(open, name), rest))
    ensures Unquote(Quoted(open, name)) == name
  {
    var q := Quoted(open, name);
    SkipSpacesOver(gap, q + rest);
    assert gap + q + rest == gap + (q + rest);
    QuotedSpan(open, name, rest);
    assert (q + rest)[..|q|] == q && (q + rest)[|q|..] == rest;
    if open != '[' { HalvedDoubled(name, open); }
    assert q[1..|q| - 1] == if open == '[' then name else Doubled(name, open);
  }

  // ---- bare names ----

  predicate IsBare(name: string) { name != "" && IsIdentStart(name[0]) && forall i | 0 <= i < |name| :: IsIdentChar(name[i]) }

  /** What is left of a name for a reader that skips white space first: some characters a
      bare name may contain are also white space to it. */
  predicate Readable(name: string) { SkipSpaces(name) != "" && IsIdentStart(SkipSpaces(name)[0]) }

  lemma {:induction false} IdentTailIs(name: string, rest: string)
    requires forall i | 0 <= i < |name| :: IsIdentChar(name[i])
    requires rest == "" || !IsIdentChar(rest[0])
    ensures IdentTail(name + rest) == |name|
  {
    if name == "" {
      assert name + rest == rest;
    } else {
      IdentTailIs(name[1..], rest);
      assert (name + rest)[1..] == name[1..] + rest;
    }
  }

  lemma {:induction false} SkipSpacesPrefix(s: string, rest: string)
    requires SkipSpaces(s) != ""
    ensures SkipSpaces(s + rest) == SkipSpaces(s) + rest
  {
    if IsSpace(s[0]) {
      SkipSpacesPrefix(s[1..], rest);
      assert (s + rest)[1..] == s[1..] + rest;
    }
  }

  lemma {:induction false} SkipSpacesAll(s: string, rest: string)
    requires SkipSpaces(s) == ""
    ensures SkipSpaces(s + rest) == SkipSpaces(rest)
  {
    if s == "" {
      assert s + rest == rest;
    } else {
      SkipSpacesAll(s[1..], rest);
      assert (s + rest)[1..] == s[1..] + rest;
    }
  }

  lemma {:induction false} SkipSpacesKeepsIdent(name: string)
    requires forall i | 0 <= i < |name| :: IsIdentChar(name[i])
    ensures forall i | 0 <= i < |SkipSpaces(name)| :: IsIdentChar(SkipSpaces(name)[i])
  {
    if name != "" && IsSpace(name[0]) { SkipSpacesKeepsIdent(name[1..]); }
  }

  lemma ReadBare(t: string, rest: string)
    requires t != "" && !IsSpace(t[0]) && IsIdentStart(t[0]) && (forall i | 0 <= i < |t| :: IsIdentChar(t[i])) && (rest == "" || !IsIdentChar(rest[0]))
    ensures ReadName(t + rest) == Some(Token(t, rest))
  {
    IdentTailIs(t[1..], rest);
    assert (t + rest)[1..] == t[1..] + rest;
    assert (t + rest)[..|t|] == t && (t + rest)[|t|..] == rest;
  }

  lemma ReadSkipsSpaces(s: string, t: string)
    requires SkipSpaces(s) == t && SkipSpaces(t) == t
    ensures ReadName(s) == ReadName(t)
  {
  }

  /** A bare name is read to its end exactly when it is readable. */
  lemma BareNameIsReadIff(name: string, rest: string)
    requires IsBare(name) && (rest == "" || !IsIdentChar(rest[0]))
    ensures Readable(name) <==> ReadName(name + rest) == Some(Token(SkipSpaces(name), rest))
  {
    var t := SkipSpaces(name);
    if t != "" {
      SkipSpacesPrefix(name, rest);
      SkipSpacesKeepsIdent(name);
      if IsIdentStart(t[0]) {
        ReadBare(t, rest);
        ReadSkipsSpaces(name + rest, t + rest);
      }
    }
  }
}
