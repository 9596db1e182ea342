/** The keyword of the terminal statement, the table it writes to, and the IF NOT EXISTS
    of a table definition. */
module SqlTarget {
  import opened Basics
  import opened SqlText
  import opened SqlNames
  import opened SqlTokens
  import opened SqlCte

  // ---- leading comments and white space ----

  /** White space, then comments, as long as there are any. */
  function SkipLeading(s: string): string
    decreases |s|
  {
    var t := SkipSpaces(s);
    if OpensLine(t) then (if IndexOf(t, '\n') == |t| then "" else SkipLeading(t[IndexOf(t, '\n') + 1..]))
    else if OpensBlock(t) then SkipLeading(t[LeadingBlock(t)..])
    else t
  }

  /** Here the closing star-slash is looked for from the opening slash on. */
  function LeadingBlock(s: string): (n: nat)
    requires OpensBlock(s)
    ensures 0 < n <= |s|
  {
    PastBlock(s)
  }

  /** What the classifiers look at. */
  function Statement(sql: string): string { SkipLeading(SkipLeadingCte(Strip(sql))) }

  predicate StartsMutation(s: string) {
    StartsWith(s, "insert") || StartsWith(s, "update") || StartsWith(s, "delete") || StartsWith(s, "replace")
    || StartsWith(s, "create") || StartsWith(s, "drop") || StartsWith(s, "alter")
  }

  predicate IsMutation(sql: string) { StartsMutation(Statement(sql)) }

  predicate IsDeleteStatement(sql: string) { StartsWith(Statement(sql), "delete") }

  // ---- the write target ----

  function WordTail(s: string): (n: nat)
    ensures n <= |s|
  {
    if s != "" && IsWordChar(s[0]) then 1 + WordTail(s[1..]) else 0
  }

  /** One or more white spaces and then this keyword. */
  function AfterSpacedWord(s: string, word: string): Option<string> {
    if s != "" && IsSpace(s[0]) && StartsWith(SkipSpaces(s), word) then Some(SkipSpaces(s)[|word|..]) else None
  }

  /** An optional OR and a conflict action. */
  function AfterOr(s: string): string {
    var t := AfterSpacedWord(s, "or");
    if t.None? || t.value == "" || !IsSpace(t.value[0]) then s
    else
      var u := SkipSpaces(t.value);
      if WordTail(u) == 0 then s else u[WordTail(u)..]
  }

  /** The keywords in front of the target. An INSERT may carry an OR clause before INTO. */
  function AfterVerb(s: string): Option<string> {
    if StartsWith(s, "insert") then
      (if AfterSpacedWord(AfterOr(s[6..]), "into").Some? then AfterSpacedWord(AfterOr(s[6..]), "into") else AfterSpacedWord(s[6..], "into"))
    else if StartsWith(s, "replace") then AfterSpacedWord(s[7..], "into")
    else if StartsWith(s, "update") then
      (if EndsVerb(AfterOr(s[6..])) then Some(AfterOr(s[6..])) else Some(s[6..]))
    else if StartsWith(s, "delete") then AfterSpacedWord(s[6..], "from")
    else None
  }

  /** The target must be set off by white space or a quote. */
  predicate EndsVerb(s: string) { s != "" && (IsSpace(s[0]) || OpensName(s[0])) }

  function TrimEnd(s: string): string { if s != "" && IsSpace(s[|s| - 1]) then TrimEnd(s[..|s| - 1]) else s }

  /** Trimmed, unquoted, in lower case. */
  function NormalizeTableName(raw: string): string { Lower(Unquote(TrimEnd(SkipSpaces(raw)))) }

  /** The last of at most two dotted components. */
  function TargetOf(s: string): Option<string> {
    var first := ReadName(s);
    if first.None? then None
    else
      var t := SkipSpaces(first.value.rest);
      if t == "" || t[0] != '.' then Some(NormalizeTableName(first.value.raw))
      else
        var second := ReadName(t[1..]);
        if second.None? then None
        else
          var u := SkipSpaces(second.value.rest);
          if u != "" && u[0] == '.' then None else Some(NormalizeTableName(second.value.raw))
  }

  function WriteTarget(sql: string): Option<string> {
    var s := AfterVerb(Statement(sql));
    if s.None? || !EndsVerb(s.value) then None else TargetOf(s.value)
  }

  // ---- the grammar of write statements ----

  datatype OrClause = NoOr | Or(gap1: seq<Tok>, or_: string, gap2: seq<Tok>, action: string)

  datatype Verb =
    | InsertInto(insert: string, or_: OrClause, gap: seq<Tok>, into: string)
    | ReplaceInto(replace: string, gap: seq<Tok>, into: string)
    | UpdateVerb(update: string, or_: OrClause)
    | DeleteFrom(delete: string, gap: seq<Tok>, from: string)

  datatype Target = Table(name: Name) | Qualified(schema: Name, gap1: seq<Tok>, gap2: seq<Tok>, name: Name)

  function OrToks(o: OrClause, after: seq<Tok>): seq<Tok> {
    if o.NoOr? then after else o.gap1 + (Word(o.or_) + (o.gap2 + (Word(o.action) + after)))
  }

  function VerbToks(v: Verb, after: seq<Tok>): seq<Tok> {
    match v
    case InsertInto(insert, or_, gap, into) => Word(insert) + OrToks(or_, gap + (Word(into) + after))
    case ReplaceInto(replace, gap, into) => Word(replace) + (gap + (Word(into) + after))
    case UpdateVerb(update, or_) => Word(update) + OrToks(or_, after)
    case DeleteFrom(delete, gap, from) => Word(delete) + (gap + (Word(from) + after))
  }

  function TargetToks(t: Target, after: seq<Tok>): seq<Tok> {
    match t
    case Table(name) => NameToks(name) + after
    case Qualified(schema, gap1, gap2, name) => NameToks(schema) + (gap1 + ([Plain('.')] + (gap2 + (NameToks(name) + after))))
  }

  predicate IsAction(a: string) { a != "" && forall i | 0 <= i < |a| :: IsLetter(a[i]) }

  predicate OrOk(o: OrClause) {
    o.Or? ==> IsGap(o.gap1) && o.gap1 != [] && Lower(o.or_) == "or" && IsGap(o.gap2) && o.gap2 != [] && IsAction(o.action)
  }

  predicate VerbOk(v: Verb) {
    match v
    case InsertInto(insert, or_, gap, into) => Lower(insert) == "insert" && OrOk(or_) && IsGap(gap) && gap != [] && Lower(into) == "into"
    case ReplaceInto(replace, gap, into) => Lower(replace) == "replace" && IsGap(gap) && gap != [] && Lower(into) == "into"
    case UpdateVerb(update, or_) => Lower(update) == "update" && OrOk(or_)
    case DeleteFrom(delete, gap, from) => Lower(delete) == "delete" && IsGap(gap) && gap != [] && Lower(from) == "from"
  }

  // ---- the statement behind any header ----

  datatype Header = NoHeader | Headed(clause: With)

  function StatementToks(lead: seq<Tok>, h: Header, after: seq<Tok>): seq<Tok> {
    lead + (if h.NoHeader? then after else WithToks(h.clause, after))
  }

  /** The statement itself begins with a letter, and without a header not with WITH. */
  predicate HeaderOk(lead: seq<Tok>, h: Header, after: seq<Tok>) {
    && IsGap(lead) && Clean(after) != "" && IsLetter(Clean(after)[0])
    && (if h.NoHeader? then !LeadsWith(Clean(after)) else WithOk(h.clause) && Reads(h.clause))
  }

  lemma LetterIsSolid(s: string)
    requires s != "" && IsLetter(s[0])
    ensures Solid(s) && SkipSpaces(s) == s && SkipLeading(s) == s && s[0] != ','
  {
  }

  lemma LeadingSpaces(gap: string, s: string)
    requires AllSpaces(gap) && s != "" && IsLetter(s[0])
    ensures SkipSpaces(gap + s) == s && SkipLeading(gap + s) == s
  {
    LetterIsSolid(s);
    SkipSpacesOver(gap, s);
  }

  /** A clause found behind white space is skipped as it is without. */
  lemma SpacesBeforeWith(gap: string, s: string)
    requires AllSpaces(gap) && Solid(s) && LeadsWith(s) && AfterWith(s) != s && AfterCtes(AfterWith(s)).Some?
    ensures SkipLeadingCte(gap + s) == SkipLeadingCte(s)
  {
    SkipSpacesOver(gap, s);
    assert SkipSpaces(s) == s;
  }

  lemma SpacedLeavesText(w: With, after: seq<Tok>)
    requires WithOk(w) && Spaced(w)
    ensures var s := Clean(WithToks(w, after)); Solid(s) && LeadsWith(s) && |AfterWith(s)| < |s|
  {
    WithStep(w, after);
    var rest := w.gap + RecursionToks(w.recursion, CtesToks(w.first, w.more, after));
    WordIsSolid(w.spelled, "with", rest);
    CleanJoin(w.gap, RecursionToks(w.recursion, CtesToks(w.first, w.more, after)));
    GapIsSpace(w.gap);
    ShorterAfterWith(w.spelled, Clean(rest));
  }

  lemma ShorterAfterWith(spelled: string, rest: string)
    requires Lower(spelled) == "with" && rest != "" && IsSpace(rest[0])
    ensures |AfterWith(spelled + rest)| < |spelled + rest|
  {
    WordIsBare(spelled, "with");
    var s := spelled + rest;
    assert SkipSpaces(s) == s && s[4] == rest[0];
    StartsWithSpelled(spelled, "with", rest);
  }

  lemma HeadedStatement(lead: seq<Tok>, w: With, after: seq<Tok>)
    requires HeaderOk(lead, Headed(w), after) && Lexes(WithToks(w, after))
    ensures SkipLeading(SkipLeadingCte(Clean(lead + WithToks(w, after)))) == Clean(after)
  {
    var s := Clean(WithToks(w, after));
    LetterIsSolid(Clean(after));
    SkipsExactlyTheClause(w, after);
    StripPrinted(WithToks(w, after));
    SpacedLeavesText(w, after);
    ClauseIsFound(w, after);
    CleanJoin(lead, WithToks(w, after));
    GapIsSpace(lead);
    SpacesBeforeWith(Clean(lead), s);
    var gap := if w.more == [] then w.first.gapBody else w.more[|w.more| - 1].1.gapBody;
    CleanJoin(gap, after);
    GapIsSpace(gap);
    LeadingSpaces(Clean(gap), Clean(after));
  }

  lemma ClauseIsFound(w: With, after: seq<Tok>)
    requires WithOk(w) && Reads(w) && Lexes(WithToks(w, after)) && StartsStatement(after)
    ensures AfterCtes(AfterWith(Clean(WithToks(w, after)))).Some?
  {
    ClauseLexes(w, after);
    WithStep(w, after);
    FirstReadIsOk(w);
    FirstReadLexes(w, after);
    CtesStep(FirstRead(w), w.more, after);
  }

  lemma PlainStatement(lead: seq<Tok>, after: seq<Tok>)
    requires HeaderOk(lead, NoHeader, after)
    ensures SkipLeading(SkipLeadingCte(Clean(lead + after))) == Clean(after)
  {
    CleanJoin(lead, after);
    GapIsSpace(lead);
    LeadingSpaces(Clean(lead), Clean(after));
    LetterIsSolid(Clean(after));
  }

  /** Whatever stands in front, the classifiers look at the statement. */
  lemma StatementIsFound(lead: seq<Tok>, h: Header, after: seq<Tok>)
    requires HeaderOk(lead, h, after) && Lexes(StatementToks(lead, h, after))
    ensures Statement(Print(StatementToks(lead, h, after))) == Clean(after)
  {
    StripPrinted(StatementToks(lead, h, after));
    match h
    case NoHeader => PlainStatement(lead, after);
    case Headed(w) =>
      LexesTail(lead, WithToks(w, after));
      HeadedStatement(lead, w, after);
  }

  /** A clause that is not read is not skipped behind white space either. */
  lemma UnreadBehindSpaces(gap: string, s: string)
    requires AllSpaces(gap) && Solid(s) && LeadsWith(s) && AfterCtes(AfterWith(s)).None?
    ensures SkipLeadingCte(gap + s) == gap + s
  {
    SkipSpacesOver(gap, s);
    SkipNothing(s);
    SpacesBeforeCtes(gap + s);
  }

  lemma WithLeads(w: With, after: seq<Tok>)
    requires WithOk(w)
    ensures var s := Clean(WithToks(w, after)); Solid(s) && IsLetter(s[0]) && StartsWith(s, "with") && LeadsWith(s)
  {
    var rest := w.gap + RecursionToks(w.recursion, CtesToks(w.first, w.more, after));
    WordIsSolid(w.spelled, "with", rest);
    if w.gap == [] {
      DelimitedFirst(w, after);
      NoGap(w.gap, CtesToks(w.first, w.more, after));
    } else {
      GapFirst(w.gap, RecursionToks(w.recursion, CtesToks(w.first, w.more, after)));
    }
  }

  lemma WithIsNoMutation(s: string)
    requires StartsWith(s, "with")
    ensures !StartsMutation(s)
  {
    assert LowerChar(s[0]) == 'w';
    StartsAlike(s, "insert");
    StartsAlike(s, "update");
    StartsAlike(s, "delete");
    StartsAlike(s, "replace");
    StartsAlike(s, "create");
    StartsAlike(s, "drop");
    StartsAlike(s, "alter");
  }

  lemma UnreadStatement(lead: seq<Tok>, w: With, after: seq<Tok>)
    requires IsGap(lead) && WithOk(w) && !Reads(w) && Lexes(WithToks(w, after)) && NotAs(after)
    ensures SkipLeading(SkipLeadingCte(Clean(lead + WithToks(w, after)))) == Clean(WithToks(w, after))
  {
    var s := Clean(WithToks(w, after));
    WithLeads(w, after);
    if Spaced(w) { UnreadClauseIsNotSkipped(w, after); }
    else if w.gap == [] { TouchingWith(w, after); }
    else { TouchingRecursive(w, after); }
    CleanJoin(lead, WithToks(w, after));
    GapIsSpace(lead);
    UnreadBehindSpaces(Clean(lead), s);
    LeadingSpaces(Clean(lead), s);
  }

  /** What begins a mutation is no AS, and begins with a letter. */
  lemma MutationBegins(s: string)
    requires StartsMutation(s)
    ensures s != "" && IsLetter(s[0]) && !StartsWith(s, "as") && !LeadsWith(s)
  {
    assert Lower(s[..1])[0] == LowerChar(s[0]);
    LetterIsSolid(s);
    if StartsWith(s, "alter") { StartsDiffer(s, "as", 1); } else { StartsAlike(s, "as"); }
    StartsAlike(s, "with");
  }

  /** So a mutation behind a WITH clause is seen as one if and only if the clause reads. */
  lemma MutationBehindClauseIff(lead: seq<Tok>, w: With, after: seq<Tok>)
    requires IsGap(lead) && WithOk(w) && StartsMutation(Clean(after)) && Lexes(StatementToks(lead, Headed(w), after))
    ensures IsMutation(Print(StatementToks(lead, Headed(w), after))) <==> Reads(w)
  {
    MutationBegins(Clean(after));
    LetterIsSolid(Clean(after));
    if Reads(w) {
      StatementIsFound(lead, Headed(w), after);
    } else {
      StripPrinted(StatementToks(lead, Headed(w), after));
      LexesTail(lead, WithToks(w, after));
      UnreadStatement(lead, w, after);
      WithLeads(w, after);
      WithIsNoMutation(Clean(WithToks(w, after)));
    }
  }

  /** So a statement is classified by its own first word. */
  lemma ClassifiedByItsOwnKeyword(lead: seq<Tok>, h: Header, after: seq<Tok>)
    requires HeaderOk(lead, h, after) && Lexes(StatementToks(lead, h, after))
    ensures IsMutation(Print(StatementToks(lead, h, after))) <==> StartsMutation(Clean(after))
    ensures IsDeleteStatement(Print(StatementToks(lead, h, after))) <==> StartsWith(Clean(after), "delete")
  {
    StatementIsFound(lead, h, after);
  }

  // ---- reading the target ----

  predicate TargetNameOk(n: Name) { if n.Bare? then IsBare(n.text) && Readable(n.text) else OpensName(n.open) && Quotable(n.open, n.text) }

  /** The name a table is known by: lower case, white space at its ends dropped from a bare name. */
  function Normalized(n: Name): string { if n.Bare? then Lower(TrimEnd(SkipSpaces(n.text))) else Lower(n.text) }

  function RawOf(n: Name): string { if n.Bare? then SkipSpaces(n.text) else Quoted(n.open, n.text) }

  lemma {:induction false} TrimEndKeepsFirst(s: string)
    requires s != "" && !IsSpace(s[0])
    ensures TrimEnd(s) != "" && TrimEnd(s)[0] == s[0]
  {
    if IsSpace(s[|s| - 1]) { TrimEndKeepsFirst(s[..|s| - 1]); }
  }

  lemma NormalizesRaw(n: Name)
    requires TargetNameOk(n)
    ensures NormalizeTableName(RawOf(n)) == Normalized(n)
  {
    var raw := RawOf(n);
    assert Solid(raw) && SkipSpaces(raw) == raw;
    match n
    case Bare(text) =>
      TrimEndKeepsFirst(raw);
      assert !IsQuoteOpen(raw[0]);
    case Delimited(open, text) =>
      QuotedNameRoundTrip(open, text, "", "");
      assert TrimEnd(raw) == raw;
  }

  lemma ReadsName(n: Name, rest: seq<Tok>)
    requires TargetNameOk(n) && Lexes(NameToks(n) + rest)
    requires n.Bare? ==> Clean(rest) == "" || !IsIdentChar(Clean(rest)[0])
    ensures ReadName(Clean(NameToks(n) + rest)) == Some(Token(RawOf(n), Clean(rest)))
  {
    match n
    case Bare(text) =>
      SpelledThen(text, rest);
      BareNameIsReadIff(text, Clean(rest));
    case Delimited(open, text) =>
      Cons(Quote(open, text), rest);
      NextKept(Quote(open, text), rest);
      QuotedNameRoundTrip(open, text, "", Clean(rest));
      assert "" + Quoted(open, text) + Clean(rest) == Quoted(open, text) + Clean(rest);
  }

  lemma GapBeforeName(g: seq<Tok>, toks: seq<Tok>)
    requires IsGap(g)
    ensures ReadName(Clean(g + toks)) == ReadName(Clean(toks))
  {
    SkipGapLoosely(g, toks);
    SpacesBeforeName(Clean(g + toks));
    SpacesBeforeName(Clean(toks));
  }

  /** What follows the target: not a further name character, and no further dot. */
  predicate EndsTarget(rest: seq<Tok>) {
    && (Clean(rest) == "" || !IsIdentChar(Clean(rest)[0]))
    && (SkipSpaces(Clean(rest)) == "" || SkipSpaces(Clean(rest))[0] != '.')
  }

  predicate TargetOk(t: Target) {
    match t
    case Table(name) => TargetNameOk(name)
    case Qualified(schema, gap1, gap2, name) => TargetNameOk(schema) && IsGap(gap1) && IsGap(gap2) && TargetNameOk(name)
  }

  lemma TableStep(gap: seq<Tok>, n: Name, rest: seq<Tok>)
    requires IsGap(gap) && TargetNameOk(n) && Lexes(NameToks(n) + rest) && EndsTarget(rest)
    ensures TargetOf(Clean(gap + (NameToks(n) + rest))) == Some(Normalized(n))
  {
    GapBeforeName(gap, NameToks(n) + rest);
    ReadsName(n, rest);
    NormalizesRaw(n);
  }

  lemma DotIsFound(gap: seq<Tok>, more: seq<Tok>)
    requires IsGap(gap)
    ensures var s := Clean(gap + ([Plain('.')] + more));
      s != "" && !IsIdentChar(s[0]) && SkipSpaces(s) == "." + Clean(more)
  {
    Cons(Plain('.'), more);
    SkipGap(gap, [Plain('.')] + more);
    CleanJoin(gap, [Plain('.')] + more);
    GapIsSpace(gap);
  }

  lemma QualifiedStep(gap: seq<Tok>, schema: Name, gap1: seq<Tok>, gap2: seq<Tok>, n: Name, rest: seq<Tok>)
    requires IsGap(gap) && TargetOk(Qualified(schema, gap1, gap2, n)) && EndsTarget(rest)
    requires Lexes(NameToks(schema) + (gap1 + ([Plain('.')] + (gap2 + (NameToks(n) + rest)))))
    ensures TargetOf(Clean(gap + (NameToks(schema) + (gap1 + ([Plain('.')] + (gap2 + (NameToks(n) + rest))))))) == Some(Normalized(n))
  {
    var second := gap2 + (NameToks(n) + rest);
    var dotted := gap1 + ([Plain('.')] + second);
    GapBeforeName(gap, NameToks(schema) + dotted);
    DotIsFound(gap1, second);
    ReadsName(schema, dotted);
    DropPrefix(".", Clean(second));
    LexesTail(NameToks(schema), dotted);
    LexesTail(gap1, [Plain('.')] + second);
    LexesTail([Plain('.')], second);
    LexesTail(gap2, NameToks(n) + rest);
    GapBeforeName(gap2, NameToks(n) + rest);
    ReadsName(n, rest);
    NormalizesRaw(n);
  }

  lemma TargetStep(gap: seq<Tok>, t: Target, rest: seq<Tok>)
    requires IsGap(gap) && TargetOk(t) && EndsTarget(rest) && Lexes(TargetToks(t, rest))
    ensures TargetOf(Clean(gap + TargetToks(t, rest))) == Some(Normalized(t.name))
  {
    match t
    case Table(name) => TableStep(gap, name, rest);
    case Qualified(schema, gap1, gap2, name) => QualifiedStep(gap, schema, gap1, gap2, name, rest);
  }

  // ---- reading the keywords in front of it ----

  lemma SpacedWordStep(gap: seq<Tok>, spelled: string, word: string, after: seq<Tok>)
    requires IsGap(gap) && gap != [] && Lower(spelled) == word && word != "" && 'a' <= word[0] <= 'z'
    ensures AfterSpacedWord(Clean(gap + (Word(spelled) + after)), word) == Some(Clean(after))
  {
    WordIsSolid(spelled, word, after);
    SkipGap(gap, Word(spelled) + after);
    CleanJoin(gap, Word(spelled) + after);
    GapIsSpace(gap);
  }

  lemma {:induction false} WordTailIs(a: string, rest: string)
    requires (forall i | 0 <= i < |a| :: IsLetter(a[i])) && (rest == "" || !IsWordChar(rest[0]))
    ensures WordTail(a + rest) == |a|
  {
    if a == "" {
      assert a + rest == rest;
    } else {
      assert (a + rest)[1..] == a[1..] + rest;
      WordTailIs(a[1..], rest);
    }
  }

  lemma OrStep(o: OrClause, after: seq<Tok>)
    requires o.Or? && OrOk(o) && (Clean(after) == "" || !IsWordChar(Clean(after)[0]))
    ensures AfterOr(Clean(OrToks(o, after))) == Clean(after)
  {
    var action := Word(o.action) + after;
    SpacedWordStep(o.gap1, o.or_, "or", o.gap2 + action);
    SpelledThen(o.action, after);
    assert Solid(o.action + Clean(after));
    SkipGap(o.gap2, action);
    CleanJoin(o.gap2, action);
    GapIsSpace(o.gap2);
    WordTailIs(o.action, Clean(after));
    DropPrefix(o.action, Clean(after));
  }

  /** Without an OR clause nothing is taken for one before INTO. */
  lemma NoOrBeforeInto(gap: seq<Tok>, into: string, after: seq<Tok>)
    requires IsGap(gap) && gap != [] && Lower(into) == "into"
    ensures AfterOr(Clean(gap + (Word(into) + after))) == Clean(gap + (Word(into) + after))
  {
    WordIsSolid(into, "into", after);
    SkipGap(gap, Word(into) + after);
    var u := into + Clean(after);
    assert LowerChar(u[0]) == 'i';
    StartsAlike(u, "or");
  }

  lemma InsertStep(insert: string, o: OrClause, gap: seq<Tok>, into: string, after: seq<Tok>)
    requires VerbOk(InsertInto(insert, o, gap, into))
    ensures AfterVerb(Clean(VerbToks(InsertInto(insert, o, gap, into), after))) == Some(Clean(after))
  {
    var tail := gap + (Word(into) + after);
    WordIsSolid(insert, "insert", OrToks(o, tail));
    SpacedWordStep(gap, into, "into", after);
    CleanJoin(gap, Word(into) + after);
    GapIsSpace(gap);
    if o.Or? { OrStep(o, tail); } else { NoOrBeforeInto(gap, into, after); }
  }

  lemma ReplaceStep(replace: string, gap: seq<Tok>, into: string, after: seq<Tok>)
    requires VerbOk(ReplaceInto(replace, gap, into))
    ensures AfterVerb(Clean(VerbToks(ReplaceInto(replace, gap, into), after))) == Some(Clean(after))
  {
    var tail := gap + (Word(into) + after);
    WordIsSolid(replace, "replace", tail);
    SpacedWordStep(gap, into, "into", after);
    assert LowerChar((replace + Clean(tail))[0]) == 'r';
    StartsAlike(replace + Clean(tail), "insert");
  }

  lemma DeleteStep(delete: string, gap: seq<Tok>, from: string, after: seq<Tok>)
    requires VerbOk(DeleteFrom(delete, gap, from))
    ensures AfterVerb(Clean(VerbToks(DeleteFrom(delete, gap, from), after))) == Some(Clean(after))
  {
    var tail := gap + (Word(from) + after);
    var s := delete + Clean(tail);
    WordIsSolid(delete, "delete", tail);
    SpacedWordStep(gap, from, "from", after);
    assert LowerChar(s[0]) == 'd';
    StartsAlike(s, "insert");
    StartsAlike(s, "replace");
    StartsAlike(s, "update");
  }

  /** The text after UPDATE is not taken for an OR clause. */
  predicate NotOr(s: string) { var u := SkipSpaces(s); !(StartsWith(u, "or") && |u| > 2 && IsSpace(u[2])) }

  lemma UpdateStep(update: string, o: OrClause, after: seq<Tok>)
    requires VerbOk(UpdateVerb(update, o)) && EndsVerb(Clean(after)) && (o.NoOr? ==> NotOr(Clean(after)))
    ensures AfterVerb(Clean(VerbToks(UpdateVerb(update, o), after))) == Some(Clean(after))
  {
    var tail := OrToks(o, after);
    var s := update + Clean(tail);
    WordIsSolid(update, "update", tail);
    assert LowerChar(s[0]) == 'u';
    StartsAlike(s, "insert");
    StartsAlike(s, "replace");
    assert !IsWordChar(Clean(after)[0]);
    if o.Or? { OrStep(o, after); }
  }

  lemma VerbStep(v: Verb, after: seq<Tok>)
    requires VerbOk(v) && EndsVerb(Clean(after)) && (v.UpdateVerb? && v.or_.NoOr? ==> NotOr(Clean(after)))
    ensures AfterVerb(Clean(VerbToks(v, after))) == Some(Clean(after))
  {
    match v
    case InsertInto(insert, or_, gap, into) => InsertStep(insert, or_, gap, into, after);
    case ReplaceInto(replace, gap, into) => ReplaceStep(replace, gap, into, after);
    case UpdateVerb(update, or_) => UpdateStep(update, or_, after);
    case DeleteFrom(delete, gap, from) => DeleteStep(delete, gap, from, after);
  }

  lemma VerbIsMutation(v: Verb, after: seq<Tok>)
    requires VerbOk(v)
    ensures var s := Clean(VerbToks(v, after)); s != "" && IsLetter(s[0]) && StartsMutation(s) && (StartsWith(s, "delete") <==> v.DeleteFrom?) && !LeadsWith(s)
  {
    var s := Clean(VerbToks(v, after));
    match v
    case InsertInto(insert, or_, gap, into) => WordIsSolid(insert, "insert", OrToks(or_, gap + (Word(into) + after))); FirstLetter(insert, "insert", s);
    case ReplaceInto(replace, gap, into) => WordIsSolid(replace, "replace", gap + (Word(into) + after)); FirstLetter(replace, "replace", s);
    case UpdateVerb(update, or_) => WordIsSolid(update, "update", OrToks(or_, after)); FirstLetter(update, "update", s);
    case DeleteFrom(delete, gap, from) => WordIsSolid(delete, "delete", gap + (Word(from) + after)); FirstLetter(delete, "delete", s);
  }

  lemma FirstLetter(spelled: string, word: string, s: string)
    requires Lower(spelled) == word && word != "" && s != "" && Solid(s) && s[0] == spelled[0] && word[0] != 'w'
    ensures LowerChar(s[0]) == word[0] && !LeadsWith(s) && (word[0] != 'd' ==> !StartsWith(s, "delete"))
  {
    assert SkipSpaces(s) == s;
    StartsAlike(s, "with");
    if word[0] != 'd' { StartsAlike(s, "delete"); }
  }

  /** The second main result. A write statement of the grammar - any verb, spelling, OR
      clause, schema qualifier and quoting, behind white space, comments and any WITH
      clause - is classified as a mutation, as a delete exactly when it is one, and its
      target is the normalized name of its table. */
  lemma WriteIsRecognized(lead: seq<Tok>, h: Header, v: Verb, gap: seq<Tok>, t: Target, rest: seq<Tok>)
    requires VerbOk(v) && IsGap(gap) && TargetOk(t) && EndsTarget(rest)
    requires IsGap(lead) && (h.Headed? ==> WithOk(h.clause) && Reads(h.clause))
    requires EndsVerb(Clean(gap + TargetToks(t, rest))) && (v.UpdateVerb? && v.or_.NoOr? ==> NotOr(Clean(gap + TargetToks(t, rest))))
    requires Lexes(StatementToks(lead, h, VerbToks(v, gap + TargetToks(t, rest))))
    ensures var sql := Print(StatementToks(lead, h, VerbToks(v, gap + TargetToks(t, rest))));
      IsMutation(sql) && (IsDeleteStatement(sql) <==> v.DeleteFrom?) && WriteTarget(sql) == Some(Normalized(t.name))
  {
    var target := gap + TargetToks(t, rest);
    var stmt := VerbToks(v, target);
    VerbIsMutation(v, target);
    StatementIsFound(lead, h, stmt);
    VerbStep(v, target);
    StatementLexes(lead, h, stmt);
    VerbLexes(v, target);
    LexesTail(gap, TargetToks(t, rest));
    TargetStep(gap, t, rest);
  }

  /** A target that SQL accepts and the reader does not: in single quotes, or a bare name
      with nothing to read after its white space but a digit, or nothing at all. */
  lemma UnreadTargetIsMissed(lead: seq<Tok>, h: Header, v: Verb, gap: seq<Tok>, n: Name, rest: seq<Tok>)
    requires VerbOk(v) && IsGap(gap) && NameOk(n) && !NameReads(n)
    requires IsGap(lead) && (h.Headed? ==> WithOk(h.clause) && Reads(h.clause))
    requires EndsVerb(Clean(gap + (NameToks(n) + rest))) && (v.UpdateVerb? && v.or_.NoOr? ==> NotOr(Clean(gap + (NameToks(n) + rest))))
    requires Lexes(StatementToks(lead, h, VerbToks(v, gap + (NameToks(n) + rest))))
    ensures var sql := Print(StatementToks(lead, h, VerbToks(v, gap + (NameToks(n) + rest))));
      IsMutation(sql) && WriteTarget(sql) == if n.Bare? && SkipSpaces(n.text) == "" then TargetOf(Clean(rest)) else None
  {
    var target := gap + (NameToks(n) + rest);
    var stmt := VerbToks(v, target);
    VerbIsMutation(v, target);
    StatementIsFound(lead, h, stmt);
    VerbStep(v, target);
    GapBeforeName(gap, NameToks(n) + rest);
    UnreadName(n, rest);
  }

  lemma UnreadName(n: Name, rest: seq<Tok>)
    requires NameOk(n) && !NameReads(n)
    ensures ReadName(Clean(NameToks(n) + rest)) == if n.Bare? && SkipSpaces(n.text) == "" then ReadName(Clean(rest)) else None
  {
    match n
    case Delimited(_, text) => SingleQuoteIsNoName(text, rest);
    case Bare(text) =>
      SpelledThen(text, rest);
      if SkipSpaces(text) != "" { NoNameThere(text, Clean(rest)); }
      else {
        SkipSpacesAll(text, Clean(rest));
        SpacesBeforeName(text + Clean(rest));
        SpacesBeforeName(Clean(rest));
      }
  }

  lemma StatementLexes(lead: seq<Tok>, h: Header, stmt: seq<Tok>)
    requires Lexes(StatementToks(lead, h, stmt))
    ensures Lexes(stmt)
  {
    match h
    case NoHeader => LexesTail(lead, stmt);
    case Headed(w) =>
      LexesTail(lead, WithToks(w, stmt));
      var ctes := CtesToks(w.first, w.more, stmt);
      LexesTail(Word(w.spelled), w.gap + RecursionToks(w.recursion, ctes));
      LexesTail(w.gap, RecursionToks(w.recursion, ctes));
      if w.recursion.Recursive? {
        LexesTail(Word(w.recursion.spelled), w.recursion.gap + ctes);
        LexesTail(w.recursion.gap, ctes);
      }
      CtesLex(w.first, w.more, stmt);
  }

  lemma {:induction false} CtesLex(first: Cte, more: seq<(seq<Tok>, Cte)>, after: seq<Tok>)
    requires Lexes(CtesToks(first, more, after))
    ensures Lexes(after)
    decreases |more|
  {
    if more == [] {
      PartsLex(first, after);
    } else {
      var next := CtesToks(more[0].1, more[1..], after);
      PartsLex(first, [Plain(',')] + (more[0].0 + next));
      LexesTail([Plain(',')], more[0].0 + next);
      LexesTail(more[0].0, next);
      CtesLex(more[0].1, more[1..], after);
    }
  }

  lemma OrLexes(o: OrClause, after: seq<Tok>)
    requires Lexes(OrToks(o, after))
    ensures Lexes(after)
  {
    if o.Or? {
      LexesTail(o.gap1, Word(o.or_) + (o.gap2 + (Word(o.action) + after)));
      LexesTail(Word(o.or_), o.gap2 + (Word(o.action) + after));
      LexesTail(o.gap2, Word(o.action) + after);
      LexesTail(Word(o.action), after);
    }
  }

  lemma VerbLexes(v: Verb, after: seq<Tok>)
    requires Lexes(VerbToks(v, after))
    ensures Lexes(after)
  {
    match v
    case InsertInto(insert, or_, gap, into) =>
      LexesTail(Word(insert), OrToks(or_, gap + (Word(into) + after)));
      OrLexes(or_, gap + (Word(into) + after));
      LexesTail(gap, Word(into) + after);
      LexesTail(Word(into), after);
    case ReplaceInto(replace, gap, into) =>
      LexesTail(Word(replace), gap + (Word(into) + after));
      LexesTail(gap, Word(into) + after);
      LexesTail(Word(into), after);
    case UpdateVerb(update, or_) =>
      LexesTail(Word(update), OrToks(or_, after));
      OrLexes(or_, after);
    case DeleteFrom(delete, gap, from) =>
      LexesTail(Word(delete), gap + (Word(from) + after));
      LexesTail(gap, Word(from) + after);
      LexesTail(Word(from), after);
  }

  // ---- table definitions ----

  /** What follows CREATE TABLE and its white space. */
  function AfterCreateTable(s: string): Option<string> {
    var t := SkipSpaces(s);
    if !StartsWith(t, "create") then None
    else
      var u := AfterSpacedWord(t[6..], "table");
      if u.None? || u.value == "" || !IsSpace(u.value[0]) then None else Some(SkipSpaces(u.value))
  }

  /** What follows IF NOT EXISTS and its white space, if that comes next. */
  function AfterIfNotExists(s: string): Option<string> {
    if !StartsWith(s, "if") then None
    else
      var t := AfterSpacedWord(s[2..], "not");
      if t.None? then None
      else
        var u := AfterSpacedWord(t.value, "exists");
        if u.None? || u.value == "" || !IsSpace(u.value[0]) then None else Some(SkipSpaces(u.value))
  }

  function ExtractCreateTableName(sql: string): Option<string> {
    var r := AfterCreateTable(sql);
    if r.None? then None
    else
      var name := ReadName(if AfterIfNotExists(r.value).Some? then AfterIfNotExists(r.value).value else r.value);
      if name.None? then None else Some(Unquote(name.value.raw))
  }

  const IF_NOT_EXISTS := "IF NOT EXISTS "

  /** The front of `s` up to its suffix `r`. */
  function Front(s: string, r: string): string
    requires |r| <= |s|
  {
    s[..|s| - |r|]
  }

  lemma AfterCreateTableShrinks(s: string)
    ensures AfterCreateTable(s).Some? ==> |AfterCreateTable(s).value| <= |s|
  {
  }

  function EnsureCreateTableIfNotExists(sql: string): string {
    var r := AfterCreateTable(sql);
    if r.None? || AfterIfNotExists(r.value).Some? then sql
    else AfterCreateTableShrinks(sql); Front(sql, r.value) + (IF_NOT_EXISTS + r.value)
  }

  predicate IsSuffix(r: string, s: string) { |r| <= |s| && s[|s| - |r|..] == r }

  /** White space in front of the part that stays. */
  lemma {:induction false} SkipKeepsFront(s: string, r: string, x: string)
    requires IsSuffix(r, SkipSpaces(s)) && |r| < |SkipSpaces(s)|
    ensures |r| <= |s| && SkipSpaces(Front(s, r) + x) == Front(SkipSpaces(s), r) + x
  {
    if s != "" && IsSpace(s[0]) {
      SkipKeepsFront(s[1..], r, x);
      assert (Front(s, r) + x)[1..] == Front(s[1..], r) + x;
    }
  }

  lemma {:induction false} SkippedFrontIsSpace(s: string)
    ensures IsSuffix(SkipSpaces(s), s) && AllSpaces(Front(s, SkipSpaces(s)))
  {
    var r := SkipSpaces(s);
    if s != "" && IsSpace(s[0]) {
      var t := s[1..];
      SkippedFrontIsSpace(t);
      assert r == SkipSpaces(t);
      SuffixOfSuffix(r, s, 1);
      AllSpacesGrow(s, r);
    } else {
      assert r == s && Front(s, r) == "";
    }
  }

  lemma AllSpacesGrow(s: string, r: string)
    requires s != "" && IsSpace(s[0]) && |r| < |s| && AllSpaces(Front(s[1..], r))
    ensures AllSpaces(Front(s, r))
  {
    assert Front(s, r) == [s[0]] + Front(s[1..], r);
  }

  /** A keyword that the part that stays begins with. */
  lemma KeywordKept(s: string, word: string, r: string, x: string)
    requires StartsWith(s, word) && IsSuffix(r, s[|word|..])
    ensures |r| <= |s| && StartsWith(Front(s, r) + x, word) && (Front(s, r) + x)[|word|..] == Front(s[|word|..], r) + x
  {
    assert (Front(s, r) + x)[..|word|] == s[..|word|];
  }

  lemma SuffixOfSuffix(r: string, s: string, n: nat)
    requires n <= |s| && IsSuffix(r, s[n..])
    ensures IsSuffix(r, s)
  {
    assert s[n..][|s| - n - |r|..] == s[|s| - |r|..];
  }

  lemma {:induction false} SuffixThroughSpaces(r: string, s: string)
    requires IsSuffix(r, SkipSpaces(s))
    ensures IsSuffix(r, s)
  {
    if s != "" && IsSpace(s[0]) {
      SuffixThroughSpaces(r, s[1..]);
      SuffixOfSuffix(r, s, 1);
    }
  }

  /** TABLE and its white space, with another continuation. */
  lemma TableKept(t: string, u: string, r: string, x: string)
    requires AfterSpacedWord(t, "table") == Some(u) && u != "" && IsSpace(u[0]) && r == SkipSpaces(u) && Solid(x)
    ensures IsSuffix(r, t) && |r| < |t|
    ensures var v := AfterSpacedWord(Front(t, r) + x, "table"); v.Some? && v.value != "" && IsSpace(v.value[0]) && SkipSpaces(v.value) == x
  {
    SkippedFrontIsSpace(u);
    var w := SkipSpaces(t);
    assert IsSuffix(r, w[5..]);
    KeywordKept(w, "table", r, x);
    SuffixOfSuffix(r, w, 5);
    SuffixThroughSpaces(r, t);
    SkipKeepsFront(t, r, x);
    assert (Front(t, r) + x)[0] == t[0];
    var v := Front(u, r) + x;
    assert v[0] == u[0];
    SkipSpacesOver(Front(u, r), x);
  }

  /** CREATE TABLE and its white space, with another continuation. */
  lemma CreateTableKept(s: string, r: string, x: string)
    requires AfterCreateTable(s) == Some(r) && Solid(x)
    ensures |r| <= |s| && AfterCreateTable(Front(s, r) + x) == Some(x)
  {
    var t := SkipSpaces(s);
    var u := AfterSpacedWord(t[6..], "table").value;
    TableKept(t[6..], u, r, x);
    KeywordKept(t, "create", r, x);
    SuffixOfSuffix(r, t, 6);
    SuffixThroughSpaces(r, s);
    SkipKeepsFront(s, r, x);
  }

  lemma LowerIs(spelled: string, word: string)
    requires |spelled| == |word| && forall i | 0 <= i < |word| :: LowerChar(spelled[i]) == word[i]
    ensures Lower(spelled) == word
  {
  }

  lemma SpacedLiteral(spelled: string, word: string, rest: string)
    requires |spelled| == |word| && word != "" && (forall i | 0 <= i < |word| :: LowerChar(spelled[i]) == word[i]) && 'A' <= spelled[0] <= 'Z'
    ensures AfterSpacedWord(" " + (spelled + rest), word) == Some(rest)
  {
    LowerIs(spelled, word);
    StartsWithSpelled(spelled, word, rest);
    SpaceSkipped(spelled + rest);
  }

  lemma InsertedIsFound(r: string)
    requires r == "" || Solid(r)
    ensures Solid(IF_NOT_EXISTS + r) && AfterIfNotExists(IF_NOT_EXISTS + r) == Some(r)
  {
    var tail := " " + ("EXISTS" + (" " + r));
    var middle := " " + ("NOT" + tail);
    assert IF_NOT_EXISTS + r == "IF" + middle;
    LowerIs("IF", "if");
    StartsWithSpelled("IF", "if", middle);
    SpacedLiteral("NOT", "not", tail);
    SpacedLiteral("EXISTS", "exists", " " + r);
    SpaceSkipped(r);
  }

  lemma SpaceSkipped(r: string)
    requires r == "" || Solid(r)
    ensures SkipSpaces(" " + r) == r
  {
    assert (" " + r)[1..] == r;
  }

  /** Adding IF NOT EXISTS twice is adding it once, and the table keeps its name. */
  lemma EnsureIsIdempotent(sql: string)
    ensures EnsureCreateTableIfNotExists(EnsureCreateTableIfNotExists(sql)) == EnsureCreateTableIfNotExists(sql)
    ensures ExtractCreateTableName(EnsureCreateTableIfNotExists(sql)) == ExtractCreateTableName(sql)
    ensures AfterCreateTable(sql).Some? ==>
      var r := AfterCreateTable(EnsureCreateTableIfNotExists(sql)); r.Some? && AfterIfNotExists(r.value).Some?
  {
    var r := AfterCreateTable(sql);
    if r.Some? && AfterIfNotExists(r.value).None? {
      InsertedIsFound(r.value);
      CreateTableKept(sql, r.value, IF_NOT_EXISTS + r.value);
    }
  }

  predicate Blank(gap: string) { gap != "" && AllSpaces(gap) }

  /** A word however it is capitalised. */
  predicate Spells(spelled: string, word: string) { Lower(spelled) == word && Solid(spelled) }

  lemma WordAfterGap(gap: string, spelled: string, word: string, rest: string)
    requires Blank(gap) && Spells(spelled, word)
    ensures AfterSpacedWord(gap + (spelled + rest), word) == Some(rest)
  {
    StartsWithSpelled(spelled, word, rest);
    SkipSpacesOver(gap, spelled + rest);
    assert (gap + (spelled + rest))[0] == gap[0];
  }

  lemma GapThenRest(gap: string, rest: string)
    requires Blank(gap) && Solid(rest)
    ensures gap + rest != "" && IsSpace((gap + rest)[0]) && SkipSpaces(gap + rest) == rest
  {
    assert (gap + rest)[0] == gap[0];
    SkipSpacesOver(gap, rest);
  }

  lemma CreateTableIsSkipped(lead: string, create: string, g1: string, table: string, g2: string, rest: string)
    requires AllSpaces(lead) && Spells(create, "create") && Blank(g1) && Spells(table, "table") && Blank(g2) && Solid(rest)
    ensures AfterCreateTable(lead + (create + (g1 + (table + (g2 + rest))))) == Some(rest)
  {
    var after := g1 + (table + (g2 + rest));
    SkipSpacesOver(lead, create + after);
    StartsWithSpelled(create, "create", after);
    WordAfterGap(g1, table, "table", g2 + rest);
    GapThenRest(g2, rest);
  }

  lemma IfNotExistsIsSkipped(if_: string, g3: string, not_: string, g4: string, exists_: string, g5: string, rest: string)
    requires Spells(if_, "if") && Blank(g3) && Spells(not_, "not") && Blank(g4) && Spells(exists_, "exists") && Blank(g5) && Solid(rest)
    ensures AfterIfNotExists(if_ + (g3 + (not_ + (g4 + (exists_ + (g5 + rest)))))) == Some(rest)
  {
    var tail := g4 + (exists_ + (g5 + rest));
    StartsWithSpelled(if_, "if", g3 + (not_ + tail));
    WordAfterGap(g3, not_, "not", tail);
    WordAfterGap(g4, exists_, "exists", g5 + rest);
    GapThenRest(g5, rest);
  }

  predicate Ends(open: char, rest: string) { open == '[' || rest == "" || rest[0] != open }

  lemma QuotedNameIsRead(open: char, name: string, rest: string)
    requires OpensName(open) && Quotable(open, name) && Ends(open, rest)
    ensures var q := Quoted(open, name) + rest; Solid(q) && ReadName(q) == Some(Token(Quoted(open, name), rest)) && Unquote(Quoted(open, name)) == name
    ensures AfterIfNotExists(Quoted(open, name) + rest).None?
  {
    QuotedNameRoundTrip(open, name, "", rest);
    assert "" + Quoted(open, name) + rest == Quoted(open, name) + rest;
    assert (Quoted(open, name) + rest)[0] == open;
    if |Quoted(open, name) + rest| >= 2 { assert Lower((Quoted(open, name) + rest)[..2])[0] == LowerChar(open); }
  }

  /** The name of a table created under a quoted name is that name, whatever it contains. */
  lemma CreatedNameIsRead(lead: string, create: string, g1: string, table: string, g2: string, open: char, name: string, rest: string)
    requires AllSpaces(lead) && Spells(create, "create") && Blank(g1) && Spells(table, "table") && Blank(g2)
    requires OpensName(open) && Quotable(open, name) && Ends(open, rest)
    ensures ExtractCreateTableName(lead + (create + (g1 + (table + (g2 + (Quoted(open, name) + rest)))))) == Some(name)
  {
    QuotedNameIsRead(open, name, rest);
    CreateTableIsSkipped(lead, create, g1, table, g2, Quoted(open, name) + rest);
  }

  /** Also behind IF NOT EXISTS, and then nothing is added to the statement. */
  lemma CreatedIfMissingNameIsRead(lead: string, create: string, g1: string, table: string, g2: string,
      if_: string, g3: string, not_: string, g4: string, exists_: string, g5: string, open: char, name: string, rest: string)
    requires AllSpaces(lead) && Spells(create, "create") && Blank(g1) && Spells(table, "table") && Blank(g2)
    requires Spells(if_, "if") && Blank(g3) && Spells(not_, "not") && Blank(g4) && Spells(exists_, "exists") && Blank(g5)
    requires OpensName(open) && Quotable(open, name) && Ends(open, rest)
    ensures var clause := if_ + (g3 + (not_ + (g4 + (exists_ + (g5 + (Quoted(open, name) + rest))))));
      var sql := lead + (create + (g1 + (table + (g2 + clause))));
      ExtractCreateTableName(sql) == Some(name) && EnsureCreateTableIfNotExists(sql) == sql
  {
    QuotedNameIsRead(open, name, rest);
    IfNotExistsIsSkipped(if_, g3, not_, g4, exists_, g5, Quoted(open, name) + rest);
    var clause := if_ + (g3 + (not_ + (g4 + (exists_ + (g5 + (Quoted(open, name) + rest))))));
    assert clause[0] == if_[0];
    CreateTableIsSkipped(lead, create, g1, table, g2, clause);
  }

  lemma TouchingExistsIsNoClause(q: string)
    requires Solid(q)
    ensures AfterIfNotExists("if" + (" " + ("not" + (" " + ("exists" + q))))).None?
  {
    var tail := " " + ("exists" + q);
    LowerIs("if", "if");
    LowerIs("not", "not");
    LowerIs("exists", "exists");
    StartsWithSpelled("if", "if", " " + ("not" + tail));
    WordAfterGap(" ", "not", "not", tail);
    WordAfterGap(" ", "exists", "exists", q);
  }

  lemma IfIsRead(rest: string)
    requires AfterIfNotExists("if" + (" " + rest)).None?
    ensures ExtractCreateTableName("create" + (" " + ("table" + (" " + ("if" + (" " + rest)))))) == Some("if")
  {
    var r := "if" + (" " + rest);
    LowerIs("create", "create");
    LowerIs("table", "table");
    CreateTableIsSkipped("", "create", " ", "table", " ", r);
    assert "" + ("create" + (" " + ("table" + (" " + r)))) == "create" + (" " + ("table" + (" " + r)));
    ReadBare("if", " " + rest);
  }

  /** A name that touches EXISTS makes the reader take IF for the table's name. */
  lemma TouchingExistsIsMissed(name: string, rest: string)
    requires rest == "" || rest[0] != '"'
    ensures ExtractCreateTableName("create" + (" " + ("table" + (" " + ("if" + (" " + ("not" + (" " + ("exists" + (Quoted('"', name) + rest)))))))))) == Some("if")
  {
    var q := Quoted('"', name) + rest;
    assert q[0] == '"';
    TouchingExistsIsNoClause(q);
    IfIsRead("not" + (" " + ("exists" + q)));
  }
}
