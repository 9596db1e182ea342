/** SQL text as the tokens it is written from: characters, quoted spans and comments. */
module SqlTokens {
  import opened SqlText
  import opened SqlNames

  datatype Tok = Plain(c: char) | Quote(open: char, name: string) | Line(comment: string) | Block(comment: string)

  function Text(t: Tok): string {
    match t
    case Plain(c) => [c]
    case Quote(open, name) => Quoted(open, name)
    case Line(comment) => "--" + comment + "\n"
    case Block(comment) => "/*" + comment + "*/"
  }

  /** What stripping makes of a token. */
  function CleanText(t: Tok): string {
    match t
    case Line(_) => " \n"
    case Block(_) => " "
    case _ => Text(t)
  }

  function Print(toks: seq<Tok>): string { if toks == [] then "" else Text(toks[0]) + Print(toks[1..]) }

  function Clean(toks: seq<Tok>): string { if toks == [] then "" else CleanText(toks[0]) + Clean(toks[1..]) }

  predicate NoStarSlash(s: string) { forall i | 0 <= i < |s| - 1 :: !(s[i] == '*' && s[i + 1] == '/') }

  /** The token is read as itself when `next` follows. */
  predicate TokOk(t: Tok, next: string) {
    match t
    case Plain(c) => !IsQuoteOpen(c) && !OpensLine([c] + next) && !OpensBlock([c] + next)
    case Quote(open, name) => IsQuoteOpen(open) && Quotable(open, name) && (open == '[' || next == "" || next[0] != open)
    case Line(comment) => '\n' !in comment
    case Block(comment) => NoStarSlash(comment)
  }

  /** The printed text falls into these tokens again: no two of them run together. */
  predicate Lexes(toks: seq<Tok>) { toks != [] ==> TokOk(toks[0], Print(toks[1..])) && Lexes(toks[1..]) }

  lemma CleanFirst(toks: seq<Tok>)
    requires toks != []
    ensures Print(toks) != "" && Clean(toks) != "" && (Clean(toks)[0] == Print(toks)[0] || Clean(toks)[0] == ' ')
  {
  }

  lemma {:induction false} CleanJoin(a: seq<Tok>, b: seq<Tok>)
    ensures Clean(a + b) == Clean(a) + Clean(b)
  {
    if a == [] {
      assert a + b == b;
    } else {
      CleanJoin(a[1..], b);
      HeadOfJoin(a, b);
    }
  }

  lemma HeadOfJoin(a: seq<Tok>, b: seq<Tok>)
    requires a != []
    ensures Clean(a + b) == CleanText(a[0]) + Clean(a[1..] + b)
  {
    assert (a + b)[1..] == a[1..] + b;
  }

  lemma {:induction false} LexesTail(a: seq<Tok>, b: seq<Tok>)
    requires Lexes(a + b)
    ensures Lexes(b)
  {
    if a == [] {
      assert a + b == b;
    } else {
      assert (a + b)[1..] == a[1..] + b;
      LexesTail(a[1..], b);
    }
  }

  lemma {:induction false} NewlineIndex(comment: string, rest: string)
    requires '\n' !in comment
    ensures IndexOf(comment + "\n" + rest, '\n') == |comment|
  {
    if comment != "" {
      assert (comment + "\n" + rest)[1..] == comment[1..] + "\n" + rest;
      NewlineIndex(comment[1..], rest);
    }
  }

  lemma {:induction false} BlockEnd(comment: string, rest: string)
    requires NoStarSlash(comment)
    ensures PastBlock(comment + "*/" + rest) == |comment| + 2
  {
    var s := comment + "*/" + rest;
    if comment != "" {
      assert s[1..] == comment[1..] + "*/" + rest;
      BlockEnd(comment[1..], rest);
      if |comment| > 1 { assert s[0] == comment[0] && s[1] == comment[1]; }
    }
  }

  lemma StripPlain(c: char, rest: string)
    requires !IsQuoteOpen(c) && !OpensLine([c] + rest) && !OpensBlock([c] + rest)
    ensures Strip([c] + rest) == [c] + Strip(rest)
  {
    assert ([c] + rest)[1..] == rest;
  }

  lemma StripQuote(open: char, name: string, rest: string)
    requires IsQuoteOpen(open) && Quotable(open, name) && (open == '[' || rest == "" || rest[0] != open)
    ensures Strip(Quoted(open, name) + rest) == Quoted(open, name) + Strip(rest)
  {
    var s := Quoted(open, name) + rest;
    QuotedSpan(open, name, rest);
    assert s[..|Quoted(open, name)|] == Quoted(open, name) && s[|Quoted(open, name)|..] == rest;
  }

  lemma LineTail(comment: string, rest: string)
    requires '\n' !in comment
    ensures var s := "--" + comment + "\n" + rest; OpensLine(s) && s[IndexOf(s, '\n')..] == "\n" + rest
  {
    NewlineIndex("--" + comment, rest);
  }

  lemma StripOpened(s: string, tail: string)
    requires OpensLine(s) && s[IndexOf(s, '\n')..] == tail
    ensures Strip(s) == " " + Strip(tail)
  {
  }

  lemma StripLine(comment: string, rest: string)
    requires '\n' !in comment
    ensures Strip("--" + comment + "\n" + rest) == " \n" + Strip(rest)
  {
    LineTail(comment, rest);
    StripOpened("--" + comment + "\n" + rest, "\n" + rest);
    StripPlain('\n', rest);
    assert " " + ("\n" + Strip(rest)) == " \n" + Strip(rest);
  }

  lemma StripBlock(comment: string, rest: string)
    requires NoStarSlash(comment)
    ensures Strip("/*" + comment + "*/" + rest) == " " + Strip(rest)
  {
    var s := "/*" + comment + "*/" + rest;
    assert s[2..] == comment + "*/" + rest;
    BlockEnd(comment, rest);
    assert s[|comment| + 4..] == rest;
  }

  /** One token. */
  lemma StripHead(t: Tok, rest: string)
    requires TokOk(t, rest)
    ensures Strip(Text(t) + rest) == CleanText(t) + Strip(rest)
  {
    match t
    case Plain(c) => StripPlain(c, rest);
    case Quote(open, name) => StripQuote(open, name, rest);
    case Line(comment) => StripLine(comment, rest);
    case Block(comment) => StripBlock(comment, rest);
  }

  /** Stripping replaces exactly the comments, wherever they stand, and keeps every quoted
      span as it is. */
  lemma {:induction false} StripPrinted(toks: seq<Tok>)
    requires Lexes(toks)
    ensures Strip(Print(toks)) == Clean(toks)
  {
    if toks != [] {
      StripPrinted(toks[1..]);
      StripHead(toks[0], Print(toks[1..]));
    }
  }

  // ---- gaps, words and bodies ----

  /** White space of the SQL grammar. */
  predicate IsSqlSpace(c: char) { c == ' ' || c == '\t' || c == '\n' || c == '\r' || c as int == 12 }

  predicate IsGap(g: seq<Tok>) { forall i | 0 <= i < |g| :: g[i].Line? || g[i].Block? || (g[i].Plain? && IsSqlSpace(g[i].c)) }

  lemma {:induction false} GapIsSpace(g: seq<Tok>)
    requires IsGap(g)
    ensures AllSpaces(Clean(g)) && (g != [] ==> Clean(g) != "" && !IsIdentChar(Clean(g)[0]) && IsSpace(Clean(g)[0]))
  {
    if g != [] { GapIsSpace(g[1..]); }
  }

  function Word(s: string): seq<Tok> { if s == "" then [] else [Plain(s[0])] + Word(s[1..]) }

  lemma {:induction false} CleanWord(s: string)
    ensures Clean(Word(s)) == s
  {
    if s != "" { CleanWord(s[1..]); }
  }

  /** Text balanced in parentheses outside quoted spans and comments. */
  datatype Body = End | Atom(tok: Tok, rest: Body) | Group(inner: Body, rest: Body)

  predicate BodyOk(b: Body) {
    match b
    case End => true
    case Atom(tok, rest) => BodyOk(rest) && (tok.Plain? ==> tok.c != '(' && tok.c != ')')
    case Group(inner, rest) => BodyOk(inner) && BodyOk(rest)
  }

  function Toks(b: Body): seq<Tok> {
    match b
    case End => []
    case Atom(tok, rest) => [tok] + Toks(rest)
    case Group(inner, rest) => [Plain('(')] + Toks(inner) + [Plain(')')] + Toks(rest)
  }

  function Parens(b: Body): seq<Tok> { [Plain('(')] + Toks(b) + [Plain(')')] }

  /** One character of a parenthesis scan. */
  lemma ScanChar(c: char, rest: string, depth: int)
    requires !IsQuoteOpen(c) && (c == ')' ==> depth != 1)
    ensures ParensTail([c] + rest, depth) == 1 + ParensTail(rest, if c == '(' then depth + 1 else if c == ')' then depth - 1 else depth)
  {
    assert ([c] + rest)[1..] == rest;
  }

  lemma ScanQuote(open: char, name: string, rest: string, depth: int)
    requires IsQuoteOpen(open) && Quotable(open, name) && (open == '[' || rest == "" || rest[0] != open)
    ensures ParensTail(Quoted(open, name) + rest, depth) == |Quoted(open, name)| + ParensTail(rest, depth)
  {
    QuotedSpan(open, name, rest);
    assert (Quoted(open, name) + rest)[|Quoted(open, name)|..] == rest;
  }

  lemma ScanLine(rest: string, depth: int)
    ensures ParensTail(" \n" + rest, depth) == 2 + ParensTail(rest, depth)
  {
    ScanChar('\n', rest, depth);
    ScanChar(' ', "\n" + rest, depth);
    assert " \n" + rest == " " + ("\n" + rest);
  }

  /** What keeps a quoted span closed survives the stripping of what follows. */
  lemma NextKept(t: Tok, more: seq<Tok>)
    requires t.Quote? && TokOk(t, Print(more))
    ensures t.open == '[' || Clean(more) == "" || Clean(more)[0] != t.open
  {
    if more != [] { CleanFirst(more); }
  }

  /** Scanning over a token that is not a parenthesis keeps the depth. */
  lemma ScanAtom(t: Tok, more: seq<Tok>, depth: int)
    requires TokOk(t, Print(more)) && (t.Plain? ==> t.c != '(' && t.c != ')')
    ensures ParensTail(CleanText(t) + Clean(more), depth) == |CleanText(t)| + ParensTail(Clean(more), depth)
  {
    var rest := Clean(more);
    match t
    case Plain(c) => ScanChar(c, rest, depth);
    case Quote(open, name) => NextKept(t, more); ScanQuote(open, name, rest, depth);
    case Line(comment) => ScanLine(rest, depth);
    case Block(comment) => ScanChar(' ', rest, depth);
  }

  lemma Cons(t: Tok, more: seq<Tok>)
    ensures Clean([t] + more) == CleanText(t) + Clean(more)
    ensures Lexes([t] + more) <==> TokOk(t, Print(more)) && Lexes(more)
  {
    assert ([t] + more)[1..] == more;
  }

  lemma CleanGroup(inner: Body, rest: Body)
    ensures Clean(Toks(Group(inner, rest))) == "(" + Clean(Toks(inner)) + ")" + Clean(Toks(rest))
  {
    CleanJoin([Plain('(')] + Toks(inner) + [Plain(')')], Toks(rest));
    CleanParens(inner);
  }

  lemma CleanParens(b: Body)
    ensures Clean(Parens(b)) == "(" + Clean(Toks(b)) + ")"
  {
    CleanJoin([Plain('(')] + Toks(b), [Plain(')')]);
    Cons(Plain('('), Toks(b));
    Cons(Plain(')'), []);
    assert [Plain(')')] + [] == [Plain(')')];
  }

  lemma AtomToks(tok: Tok, rest: Body, more: seq<Tok>)
    ensures Clean(Toks(Atom(tok, rest)) + more) == CleanText(tok) + Clean(Toks(rest) + more)
    ensures Lexes(Toks(Atom(tok, rest)) + more) <==> TokOk(tok, Print(Toks(rest) + more)) && Lexes(Toks(rest) + more)
    ensures Clean(Toks(Atom(tok, rest))) == CleanText(tok) + Clean(Toks(rest))
  {
    assert [tok] + Toks(rest) + more == [tok] + (Toks(rest) + more);
    Cons(tok, Toks(rest) + more);
    Cons(tok, Toks(rest));
  }

  /** Scanning over a balanced body keeps the depth. */
  lemma {:induction false} ScanBody(b: Body, more: seq<Tok>, depth: int)
    requires BodyOk(b) && Lexes(Toks(b) + more) && depth >= 1
    ensures ParensTail(Clean(Toks(b) + more), depth) == |Clean(Toks(b))| + ParensTail(Clean(more), depth)
    decreases b, 1
  {
    match b
    case End => assert [] + more == more;
    case Atom(tok, rest) =>
      AtomToks(tok, rest, more);
      ScanAtom(tok, Toks(rest) + more, depth);
      ScanBody(rest, more, depth);
    case Group(inner, rest) => ScanGroup(inner, rest, more, depth);
  }

  lemma GroupToks(inner: Body, rest: Body, more: seq<Tok>)
    ensures Toks(Group(inner, rest)) + more == [Plain('(')] + (Toks(inner) + ([Plain(')')] + (Toks(rest) + more)))
  {
  }

  lemma GroupLexes(inner: Body, rest: Body, more: seq<Tok>)
    requires Lexes(Toks(Group(inner, rest)) + more)
    ensures Lexes(Toks(inner) + ([Plain(')')] + (Toks(rest) + more))) && Lexes(Toks(rest) + more)
  {
    var close := [Plain(')')] + (Toks(rest) + more);
    GroupToks(inner, rest, more);
    Cons(Plain('('), Toks(inner) + close);
    LexesTail(Toks(inner), close);
    Cons(Plain(')'), Toks(rest) + more);
  }

  lemma {:induction false} ScanGroup(inner: Body, rest: Body, more: seq<Tok>, depth: int)
    requires BodyOk(inner) && BodyOk(rest) && Lexes(Toks(Group(inner, rest)) + more) && depth >= 1
    ensures ParensTail(Clean(Toks(Group(inner, rest)) + more), depth) == |Clean(Toks(Group(inner, rest)))| + ParensTail(Clean(more), depth)
    decreases Group(inner, rest), 0
  {
    GroupLexes(inner, rest, more);
    ScanInner(inner, Toks(rest) + more, depth);
    ScanBody(rest, more, depth);
    CleanGroup(inner, rest);
    GroupToks(inner, rest, more);
  }

  lemma {:induction false} ScanInner(inner: Body, after: seq<Tok>, depth: int)
    requires BodyOk(inner) && Lexes(Toks(inner) + ([Plain(')')] + after)) && depth >= 1
    ensures ParensTail(Clean([Plain('(')] + (Toks(inner) + ([Plain(')')] + after))), depth) == 2 + |Clean(Toks(inner))| + ParensTail(Clean(after), depth)
    decreases inner, 2
  {
    var close := [Plain(')')] + after;
    ScanBody(inner, close, depth + 1);
    Cons(Plain('('), Toks(inner) + close);
    ScanChar('(', Clean(Toks(inner) + close), depth);
    Cons(Plain(')'), after);
    ScanChar(')', Clean(after), depth + 1);
  }

  /** So a parenthesized body is skipped exactly. */
  lemma SkipsParens(b: Body, more: seq<Tok>)
    requires BodyOk(b) && Lexes(Parens(b) + more)
    ensures ParensTail(Clean(Parens(b) + more), 0) == |Clean(Parens(b))|
  {
    var close := [Plain(')')] + more;
    assert Parens(b) + more == [Plain('(')] + (Toks(b) + close);
    Cons(Plain('('), Toks(b) + close);
    LexesTail(Toks(b), close);
    Cons(Plain(')'), more);
    ScanChar('(', Clean(Toks(b) + close), 0);
    ScanBody(b, close, 1);
    CleanParens(b);
  }
}
