/** The quote-aware scanners: quoted spans, balanced parentheses, comment stripping.
    Each method is the index-advancing loop; the function beside it says, on the rest of
    the text, what the loop computes. */
module SqlText {

  predicate IsQuoteOpen(c: char) { c == '\'' || c == '"' || c == '`' || c == '[' }

  function CloseOf(open: char): char { if open == '[' then ']' else open }

  /** A doubled delimiter stays inside the span, except in brackets. */
  predicate Escapable(open: char) { open != '[' }

  // ---- quoted spans ----

  datatype Span = Span(length: nat, terminated: bool)

  function After(n: nat, s: Span): Span { Span(n + s.length, s.terminated) }

  /** How far the span goes, from just past its opening quote. */
  function SpanTail(s: string, close: char, escapable: bool): (r: Span)
    ensures r.length <= |s| && (r.terminated ==> r.length > 0) && (!r.terminated ==> r.length == |s|)
  {
    if s == "" then Span(0, false)
    else if s[0] != close then After(1, SpanTail(s[1..], close, escapable))
    else if escapable && |s| > 1 && s[1] == close then After(2, SpanTail(s[2..], close, escapable))
    else Span(1, true)
  }

  function QuoteSpan(s: string): (r: Span)
    requires s != "" && IsQuoteOpen(s[0])
    ensures 0 < r.length <= |s| && (!r.terminated ==> r.length == |s|) && (r.terminated ==> r.length > 1)
  {
    After(1, SpanTail(s[1..], CloseOf(s[0]), Escapable(s[0])))
  }

  method SkipQuoteSpan(sql: string, start: nat) returns (end: nat, terminated: bool)
    requires start < |sql|
    ensures if IsQuoteOpen(sql[start]) then start < end <= |sql| && Span(end - start, terminated) == QuoteSpan(sql[start..])
            else end == start && !terminated
  {
    var open := sql[start];
    if !IsQuoteOpen(open) { return start, false; }
    var close, escapable := CloseOf(open), Escapable(open);
    var i := start + 1;
    assert sql[start..][1..] == sql[i..];
    while i < |sql|
      invariant start < i <= |sql|
      invariant QuoteSpan(sql[start..]) == After(i - start, SpanTail(sql[i..], close, escapable))
    {
      if sql[i] == close {
        if escapable && i + 1 < |sql| && sql[i + 1] == close {
          assert sql[i..][2..] == sql[i + 2..];
          i := i + 2;
          continue;
        }
        return i + 1, true;
      }
      assert sql[i..][1..] == sql[i + 1..];
      i := i + 1;
    }
    return |sql|, false;
  }

  // ---- balanced parentheses ----

  /** How far the text goes to the parenthesis that closes `depth` open ones. */
  function ParensTail(s: string, depth: int): (n: nat)
    ensures n <= |s|
    decreases |s|
  {
    if s == "" then 0
    else if IsQuoteOpen(s[0]) then QuoteSpan(s).length + ParensTail(s[QuoteSpan(s).length..], depth)
    else if s[0] == '(' then 1 + ParensTail(s[1..], depth + 1)
    else if s[0] == ')' then (if depth == 1 then 1 else 1 + ParensTail(s[1..], depth - 1))
    else 1 + ParensTail(s[1..], depth)
  }

  method SkipBalancedParens(sql: string, start: nat) returns (end: nat)
    requires start <= |sql|
    ensures start <= end <= |sql| && end == start + ParensTail(sql[start..], 0)
  {
    var depth := 0;
    var i := start;
    while i < |sql|
      invariant start <= i <= |sql|
      invariant start + ParensTail(sql[start..], 0) == i + ParensTail(sql[i..], depth)
    {
      var c := sql[i];
      if IsQuoteOpen(c) {
        var e, _ := SkipQuoteSpan(sql, i);
        assert sql[i..][e - i..] == sql[e..];
        i := e;
        continue;
      }
      assert sql[i..][1..] == sql[i + 1..];
      if c == '(' { depth := depth + 1; }
      else if c == ')' {
        depth := depth - 1;
        if depth == 0 { return i + 1; }
      }
      i := i + 1;
    }
    return |sql|;
  }

  // ---- comments ----

  function IndexOf(s: string, c: char): (n: nat)
    ensures n <= |s| && (n < |s| ==> s[n] == c) && forall i | 0 <= i < n :: s[i] != c
  {
    if s == "" || s[0] == c then 0 else 1 + IndexOf(s[1..], c)
  }

  /** Past the first star-slash, or the whole text. */
  function PastBlock(s: string): (n: nat)
    ensures n <= |s|
  {
    if |s| < 2 then |s| else if s[0] == '*' && s[1] == '/' then 2 else 1 + PastBlock(s[1..])
  }

  predicate OpensLine(s: string) { |s| > 1 && s[0] == '-' && s[1] == '-' }

  predicate OpensBlock(s: string) { |s| > 1 && s[0] == '/' && s[1] == '*' }

  function BlockLength(s: string): (n: nat)
    requires OpensBlock(s)
    ensures 2 <= n <= |s|
  {
    2 + PastBlock(s[2..])
  }

  /** Each comment becomes a space; a line comment's newline stays. */
  function Strip(s: string): string
    decreases |s|
  {
    if s == "" then ""
    else if IsQuoteOpen(s[0]) then s[..QuoteSpan(s).length] + Strip(s[QuoteSpan(s).length..])
    else if OpensLine(s) then " " + Strip(s[IndexOf(s, '\n')..])
    else if OpensBlock(s) then " " + Strip(s[BlockLength(s)..])
    else [s[0]] + Strip(s[1..])
  }

  method FindPastBlock(sql: string, from: nat) returns (end: nat)
    requires from <= |sql|
    ensures from <= end <= |sql| && end == from + PastBlock(sql[from..])
  {
    end := from;
    while end + 1 < |sql| && !(sql[end] == '*' && sql[end + 1] == '/')
      invariant from <= end <= |sql|
      invariant from + PastBlock(sql[from..]) == end + PastBlock(sql[end..])
    {
      assert sql[end..][1..] == sql[end + 1..];
      end := end + 1;
    }
    if end + 1 < |sql| { end := end + 2; } else { end := |sql|; }
  }

  method FindNewline(sql: string, from: nat) returns (end: nat)
    requires from <= |sql|
    ensures from <= end <= |sql| && end == from + IndexOf(sql[from..], '\n')
  {
    end := from;
    while end < |sql| && sql[end] != '\n'
      invariant from <= end <= |sql|
      invariant from + IndexOf(sql[from..], '\n') == end + IndexOf(sql[end..], '\n')
    {
      assert sql[end..][1..] == sql[end + 1..];
      end := end + 1;
    }
  }

  lemma StripLineAt(sql: string, i: nat, end: nat)
    requires i <= end <= |sql| && OpensLine(sql[i..]) && end == i + IndexOf(sql[i..], '\n')
    ensures Strip(sql[i..]) == " " + Strip(sql[end..]) && i < end
  {
    assert sql[i..][end - i..] == sql[end..];
    assert end != i && (sql[i..][1] == '-');
  }

  lemma StripBlockAt(sql: string, i: nat, end: nat)
    requires i + 2 <= end <= |sql| && OpensBlock(sql[i..]) && end == i + 2 + PastBlock(sql[i + 2..])
    ensures Strip(sql[i..]) == " " + Strip(sql[end..])
  {
    assert sql[i..][2..] == sql[i + 2..];
    assert sql[i..][end - i..] == sql[end..];
  }

  lemma StripQuoteAt(sql: string, i: nat, end: nat)
    requires i < end <= |sql| && IsQuoteOpen(sql[i]) && QuoteSpan(sql[i..]).length == end - i
    ensures Strip(sql[i..]) == sql[i..end] + Strip(sql[end..])
  {
    assert sql[i..][end - i..] == sql[end..] && sql[i..][..end - i] == sql[i..end];
  }

  lemma StripPlainAt(sql: string, i: nat)
    requires i < |sql| && !IsQuoteOpen(sql[i]) && !OpensLine(sql[i..]) && !OpensBlock(sql[i..])
    ensures Strip(sql[i..]) == [sql[i]] + Strip(sql[i + 1..])
  {
    assert sql[i..][1..] == sql[i + 1..];
  }

  /** One round of the stripping loop: what is written, and where it goes on. */
  method StripOne(sql: string, i: nat) returns (piece: string, next: nat)
    requires i < |sql|
    ensures i < next <= |sql| && Strip(sql[i..]) == piece + Strip(sql[next..])
  {
    var c := sql[i];
    if IsQuoteOpen(c) {
      var terminated;
      next, terminated := SkipQuoteSpan(sql, i);
      StripQuoteAt(sql, i, next);
      piece := sql[i..next];
    } else if i + 1 < |sql| && c == '-' && sql[i + 1] == '-' {
      next := FindNewline(sql, i);
      StripLineAt(sql, i, next);
      piece := " ";
    } else if i + 1 < |sql| && c == '/' && sql[i + 1] == '*' {
      next := FindPastBlock(sql, i + 2);
      StripBlockAt(sql, i, next);
      piece := " ";
    } else {
      StripPlainAt(sql, i);
      piece, next := [c], i + 1;
    }
  }

  method StripCommentsPreservingStrings(sql: string) returns (out: string)
    ensures out == Strip(sql)
  {
    out := "";
    var i := 0;
    while i < |sql|
      invariant i <= |sql|
      invariant Strip(sql) == out + Strip(sql[i..])
    {
      var piece, next := StripOne(sql, i);
      assert out + (piece + Strip(sql[next..])) == (out + piece) + Strip(sql[next..]);
      out := out + piece;
      i := next;
    }
  }

  // ---- laws of comment stripping, for every string ----

  /** No comment opens outside a quoted span. */
  predicate CommentFree(s: string)
    decreases |s|
  {
    s == ""
    || (if IsQuoteOpen(s[0]) then CommentFree(s[QuoteSpan(s).length..])
        else !OpensLine(s) && !OpensBlock(s) && CommentFree(s[1..]))
  }

  lemma {:induction false} StripKeepsFirst(s: string)
    requires s != ""
    ensures Strip(s) != "" && (Strip(s)[0] == s[0] || Strip(s)[0] == ' ')
  {
  }

  /** A terminated span ends in the same place whatever follows, unless that is another
      closing delimiter. */
  lemma {:induction false} SpanTailExtends(s: string, close: char, escapable: bool, rest: string)
    requires SpanTail(s, close, escapable) == Span(|s|, true)
    requires rest == "" || rest[0] != close || !escapable
    ensures SpanTail(s + rest, close, escapable) == Span(|s|, true)
    decreases |s|
  {
    var t := s + rest;
    if s[0] != close {
      assert t[1..] == s[1..] + rest;
      SpanTailExtends(s[1..], close, escapable, rest);
    } else if escapable && |s| > 1 && s[1] == close {
      assert t[2..] == s[2..] + rest;
      SpanTailExtends(s[2..], close, escapable, rest);
    }
  }

  lemma {:induction false} SpanTailIsSelfContained(s: string, close: char, escapable: bool)
    requires SpanTail(s, close, escapable).terminated
    ensures var n := SpanTail(s, close, escapable).length;
      SpanTail(s[..n], close, escapable) == Span(n, true) && (n < |s| && escapable ==> s[n] != close)
    decreases |s|
  {
    var n := SpanTail(s, close, escapable).length;
    if s[0] != close {
      SpanTailIsSelfContained(s[1..], close, escapable);
      assert s[..n][1..] == s[1..][..n - 1];
    } else if escapable && |s| > 1 && s[1] == close {
      SpanTailIsSelfContained(s[2..], close, escapable);
      assert s[..n][2..] == s[2..][..n - 2];
    }
  }

  /** The span at the head of `s`, put before another text that starts alike. */
  lemma QuoteSpanKept(s: string, rest: string)
    requires s != "" && IsQuoteOpen(s[0])
    requires var n := QuoteSpan(s).length; rest != "" ==> n < |s| && (rest[0] == s[n] || rest[0] == ' ')
    ensures QuoteSpan(s[..QuoteSpan(s).length] + rest) == QuoteSpan(s) || rest == ""
    ensures QuoteSpan(s[..QuoteSpan(s).length] + rest).length == QuoteSpan(s).length
  {
    var n := QuoteSpan(s).length;
    var t := s[..n] + rest;
    var close, escapable := CloseOf(s[0]), Escapable(s[0]);
    if QuoteSpan(s).terminated {
      SpanTailIsSelfContained(s[1..], close, escapable);
      assert s[1..][..n - 1] == s[..n][1..];
      assert n < |s| ==> s[1..][n - 1] == s[n];
      SpanTailExtends(s[..n][1..], close, escapable, rest);
      assert t[1..] == s[..n][1..] + rest;
    } else {
      assert s[..n] == s && t == s;
    }
  }

  /** After stripping, no comment opener is left outside quoted spans. */
  lemma {:induction false} StripIsCommentFree(s: string)
    ensures CommentFree(Strip(s))
    decreases |s|
  {
    if s == "" {
    } else if IsQuoteOpen(s[0]) {
      var n := QuoteSpan(s).length;
      StripIsCommentFree(s[n..]);
      if s[n..] != "" { StripKeepsFirst(s[n..]); }
      QuoteSpanKept(s, Strip(s[n..]));
      assert (s[..n] + Strip(s[n..]))[n..] == Strip(s[n..]);
    } else if OpensLine(s) {
      StripIsCommentFree(s[IndexOf(s, '\n')..]);
      assert (" " + Strip(s[IndexOf(s, '\n')..]))[1..] == Strip(s[IndexOf(s, '\n')..]);
    } else if OpensBlock(s) {
      StripIsCommentFree(s[BlockLength(s)..]);
      assert (" " + Strip(s[BlockLength(s)..]))[1..] == Strip(s[BlockLength(s)..]);
    } else {
      StripIsCommentFree(s[1..]);
      if s[1..] != "" { StripKeepsFirst(s[1..]); }
      assert ([s[0]] + Strip(s[1..]))[1..] == Strip(s[1..]);
    }
  }

  /** Stripping leaves a text alone exactly when it has no comment, and otherwise shortens it. */
  lemma {:induction false} StripFixesCommentFree(s: string)
    ensures |Strip(s)| <= |s|
    ensures Strip(s) == s <==> CommentFree(s)
    ensures CommentFree(s) || |Strip(s)| < |s|
    decreases |s|
  {
    if s == "" {
    } else if IsQuoteOpen(s[0]) {
      var n := QuoteSpan(s).length;
      StripFixesCommentFree(s[n..]);
      assert s == s[..n] + s[n..];
    } else if OpensLine(s) {
      StripFixesCommentFree(s[IndexOf(s, '\n')..]);
      assert IndexOf(s, '\n') >= 2;
    } else if OpensBlock(s) {
      StripFixesCommentFree(s[BlockLength(s)..]);
    } else {
      StripFixesCommentFree(s[1..]);
      assert s == [s[0]] + s[1..];
    }
  }

  lemma StripIsIdempotent(s: string)
    ensures Strip(Strip(s)) == Strip(s)
  {
    StripIsCommentFree(s);
    StripFixesCommentFree(Strip(s));
  }
}
