/** Skipping a leading WITH clause: the parser's steps, a printer for the clause's grammar,
    and the proof that the parser stops exactly at the statement the clause is attached to. */
module SqlCte {
  import opened Basics
  import opened SqlText
  import opened SqlNames
  import opened SqlTokens

  // ---- the parser ----

  predicate IsWordChar(c: char) { IsLetter(c) || c == '_' || '0' <= c <= '9' }

  predicate LeadsWith(sql: string) {
    var t := SkipSpaces(sql);
    StartsWith(t, "with") && (|t| == 4 || !IsWordChar(t[4]))
  }

  /** Past the keyword and an optional RECURSIVE, each of which needs white space after it;
      the text itself when there is none. */
  function AfterWith(sql: string): (r: string)
    ensures |r| <= |sql|
  {
    var t := SkipSpaces(sql);
    if !StartsWith(t, "with") || |t| == 4 || !IsSpace(t[4]) then sql
    else
      var u := SkipSpaces(t[4..]);
      if StartsWith(u, "recursive") && |u| > 9 && IsSpace(u[9]) then SkipSpaces(u[9..]) else u
  }

  /** An optional column list. */
  function AfterColumns(s: string): (r: string)
    ensures |r| <= |s|
  {
    var t := SkipSpaces(s);
    if t != "" && t[0] == '(' then t[ParensTail(t, 0)..] else s
  }

  function AfterAs(s: string): (r: Option<string>)
    ensures r.Some? ==> |r.value| <= |s|
  {
    var t := SkipSpaces(s);
    if StartsWith(t, "as") then Some(SkipSpaces(t[2..])) else None
  }

  /** An optional MATERIALIZED or NOT MATERIALIZED. */
  function AfterHint(s: string): (r: string)
    ensures |r| <= |s|
  {
    var t := SkipSpaces(s);
    if StartsWith(t, "materialized") then SkipSpaces(t[12..])
    else if StartsWith(t, "not") && |t| > 3 && IsSpace(t[3]) && StartsWith(SkipSpaces(t[3..]), "materialized") then
      SkipSpaces(SkipSpaces(t[3..])[12..])
    else s
  }

  function AfterBody(s: string): (r: Option<string>)
    ensures r.Some? ==> |r.value| <= |s|
  {
    var t := SkipSpaces(s);
    if t != "" && t[0] == '(' then Some(t[ParensTail(t, 0)..]) else None
  }

  /** One common table expression. */
  function AfterCte(s: string): (r: Option<string>)
    ensures r.Some? ==> |r.value| < |s|
  {
    var id := ReadName(s);
    if id.None? then None
    else
      var rest := AfterAs(AfterColumns(id.value.rest));
      if rest.None? then None else AfterBody(AfterHint(rest.value))
  }

  function AfterCtes(s: string): Option<string>
    decreases |s|
  {
    var one := AfterCte(s);
    if one.None? then None
    else
      var t := SkipSpaces(one.value);
      if t != "" && t[0] == ',' then AfterCtes(SkipSpaces(t[1..])) else one
  }

  function SkipLeadingCte(sql: string): string {
    if !LeadsWith(sql) then sql
    else if AfterCtes(AfterWith(sql)).Some? then AfterCtes(AfterWith(sql)).value
    else sql
  }

  /** The loop over the clause's expressions; the whole text is given back unchanged when
      some part does not fit. */
  method SkipCteLoop(sql: string) returns (out: string)
    ensures out == SkipLeadingCte(sql)
  {
    if !LeadsWith(sql) { return sql; }
    var s := AfterWith(sql);
    while true
      invariant AfterCtes(AfterWith(sql)) == AfterCtes(s)
      decreases |s|
    {
      var one := AfterCte(s);
      if one.None? { return sql; }
      var t := SkipSpaces(one.value);
      if t != "" && t[0] == ',' {
        s := SkipSpaces(t[1..]);
        continue;
      }
      return one.value;
    }
  }

  // ---- the grammar ----

  datatype Name = Bare(text: string) | Delimited(open: char, text: string)

  datatype Columns = NoColumns | Columns(list: Body, gap: seq<Tok>)

  datatype Hint = NoHint | Materialized(spelled: string, gap: seq<Tok>)
    | NotMaterialized(not_: string, gapNot: seq<Tok>, spelled: string, gap: seq<Tok>)

  /** One expression. Every keyword is kept as it is spelled, every gap as it is written. */
  datatype Cte = Cte(name: Name, gapName: seq<Tok>, columns: Columns, as_: string, gapAs: seq<Tok>, hint: Hint, body: Body, gapBody: seq<Tok>)

  datatype Recursion = NotRecursive | Recursive(spelled: string, gap: seq<Tok>)

  /** The clause; each further expression comes after a comma and a gap. */
  datatype With = With(spelled: string, gap: seq<Tok>, recursion: Recursion, first: Cte, more: seq<(seq<Tok>, Cte)>)

  function NameToks(n: Name): seq<Tok> { if n.Bare? then Word(n.text) else [Quote(n.open, n.text)] }

  /** The printers of optional parts put `after` behind them. */
  function ColumnToks(c: Columns, after: seq<Tok>): seq<Tok> { if c.NoColumns? then after else Parens(c.list) + (c.gap + after) }

  function HintToks(h: Hint, after: seq<Tok>): seq<Tok> {
    match h
    case NoHint => after
    case Materialized(spelled, gap) => Word(spelled) + (gap + after)
    case NotMaterialized(not_, gapNot, spelled, gap) => Word(not_) + (gapNot + (Word(spelled) + (gap + after)))
  }

  function BodyToks(c: Cte, after: seq<Tok>): seq<Tok> { Parens(c.body) + (c.gapBody + after) }

  function AsToks(c: Cte, after: seq<Tok>): seq<Tok> { Word(c.as_) + (c.gapAs + HintToks(c.hint, BodyToks(c, after))) }

  function CteToks(c: Cte, after: seq<Tok>): seq<Tok> { NameToks(c.name) + (c.gapName + ColumnToks(c.columns, AsToks(c, after))) }

  /** SQL takes any of the four quotes around a name, the single quote too. */
  predicate NameOk(n: Name) { if n.Bare? then IsBare(n.text) else IsQuoteOpen(n.open) && Quotable(n.open, n.text) }

  /** The parser reads this name: single quotes do not open one for it, and some characters
      of bare names are white space to it. */
  predicate NameReads(n: Name) { if n.Bare? then Readable(n.text) else OpensName(n.open) }

  predicate HintOk(h: Hint) {
    match h
    case NoHint => true
    case Materialized(spelled, gap) => Lower(spelled) == "materialized" && IsGap(gap)
    case NotMaterialized(not_, gapNot, spelled, gap) =>
      Lower(not_) == "not" && IsGap(gapNot) && gapNot != [] && Lower(spelled) == "materialized" && IsGap(gap)
  }

  predicate CteOk(c: Cte) { NameOk(c.name) && PartsOk(c) }

  predicate PartsOk(c: Cte) {
    && IsGap(c.gapName) && Lower(c.as_) == "as" && IsGap(c.gapAs) && HintOk(c.hint) && BodyOk(c.body) && IsGap(c.gapBody)
    && (c.columns.Columns? ==> BodyOk(c.columns.list) && IsGap(c.columns.gap))
    && (c.name.Bare? && c.columns.NoColumns? ==> c.gapName != [])
    && (!c.hint.NoHint? ==> c.gapAs != [])
  }

  // ---- each step of the parser on what the printer wrote ----

  /** The text does not start with white space. */
  predicate Solid(s: string) { s != "" && !IsSpace(s[0]) }

  lemma SkipGap(g: seq<Tok>, more: seq<Tok>)
    requires IsGap(g) && (Clean(more) == "" || Solid(Clean(more)))
    ensures SkipSpaces(Clean(g + more)) == Clean(more)
  {
    CleanJoin(g, more);
    GapIsSpace(g);
    SkipSpacesOver(Clean(g), Clean(more));
  }

  lemma SkipNothing(s: string)
    requires s == "" || Solid(s)
    ensures SkipSpaces(s) == s
  {
  }

  lemma WordIsSolid(spelled: string, word: string, more: seq<Tok>)
    requires Lower(spelled) == word && word != "" && 'a' <= word[0] <= 'z'
    ensures Clean(Word(spelled) + more) == spelled + Clean(more) && Solid(spelled + Clean(more))
    ensures IsLetter((spelled + Clean(more))[0]) && StartsWith(spelled + Clean(more), word) && (spelled + Clean(more))[|word|..] == Clean(more)
  {
    CleanJoin(Word(spelled), more);
    CleanWord(spelled);
    StartsWithSpelled(spelled, word, Clean(more));
    assert LowerChar(spelled[0]) == word[0];
  }

  lemma StartsDiffer(s: string, word: string, i: nat)
    requires i < |s| && i < |word| && LowerChar(s[i]) != word[i]
    ensures !StartsWith(s, word)
  {
  }

  lemma StartsAlike(s: string, word: string)
    requires s != "" && word != "" && LowerChar(s[0]) != word[0]
    ensures !StartsWith(s, word)
  {
    StartsDiffer(s, word, 0);
  }

  lemma DropPrefix(a: string, b: string)
    ensures (a + b)[|a|..] == b
  {
  }

  lemma ParensAreSolid(b: Body, more: seq<Tok>)
    requires BodyOk(b) && Lexes(Parens(b) + more)
    ensures var s := Clean(Parens(b) + more); Solid(s) && s[0] == '(' && ParensTail(s, 0) <= |s| && s[ParensTail(s, 0)..] == Clean(more)
  {
    SkipsParens(b, more);
    ParensText(b, more);
  }

  lemma ParensText(b: Body, more: seq<Tok>)
    ensures var s := Clean(Parens(b) + more); Solid(s) && s[0] == '(' && s == Clean(Parens(b)) + Clean(more) && s[|Clean(Parens(b))|..] == Clean(more)
  {
    CleanJoin(Parens(b), more);
    CleanParens(b);
    DropPrefix(Clean(Parens(b)), Clean(more));
  }

  lemma BodyStep(c: Cte, after: seq<Tok>)
    requires PartsOk(c) && Lexes(BodyToks(c, after))
    ensures AfterBody(Clean(BodyToks(c, after))) == Some(Clean(c.gapBody + after))
  {
    ParensAreSolid(c.body, c.gapBody + after);
  }

  lemma NoHintStep(s: string)
    requires Solid(s) && s[0] == '('
    ensures AfterHint(s) == s
  {
    StartsAlike(s, "materialized");
    StartsAlike(s, "not");
  }

  lemma PlainHintStep(spelled: string, gap: seq<Tok>, rest: seq<Tok>)
    requires Lower(spelled) == "materialized" && IsGap(gap) && Solid(Clean(rest))
    ensures var s := Clean(Word(spelled) + (gap + rest)); Solid(s) && AfterHint(s) == Clean(rest)
  {
    WordIsSolid(spelled, "materialized", gap + rest);
    SkipGap(gap, rest);
  }

  lemma NotHintStep(not_: string, gapNot: seq<Tok>, spelled: string, gap: seq<Tok>, rest: seq<Tok>)
    requires HintOk(NotMaterialized(not_, gapNot, spelled, gap)) && Solid(Clean(rest))
    ensures var s := Clean(Word(not_) + (gapNot + (Word(spelled) + (gap + rest)))); Solid(s) && AfterHint(s) == Clean(rest)
  {
    var tail := Word(spelled) + (gap + rest);
    WordIsSolid(not_, "not", gapNot + tail);
    WordIsSolid(spelled, "materialized", gap + rest);
    SkipGap(gapNot, tail);
    SkipGap(gap, rest);
    CleanJoin(gapNot, tail);
    GapIsSpace(gapNot);
    var s := not_ + Clean(gapNot + tail);
    assert s[3] == Clean(gapNot)[0] && LowerChar(s[0]) == 'n';
    StartsAlike(s, "materialized");
  }

  /** The hint is skipped, and nothing else is taken for one. */
  lemma HintStep(h: Hint, rest: seq<Tok>)
    requires HintOk(h) && Solid(Clean(rest)) && Clean(rest)[0] == '('
    ensures var s := Clean(HintToks(h, rest)); Solid(s) && AfterHint(s) == Clean(rest)
  {
    match h
    case NoHint => NoHintStep(Clean(rest));
    case Materialized(spelled, gap) => PlainHintStep(spelled, gap, rest);
    case NotMaterialized(not_, gapNot, spelled, gap) => NotHintStep(not_, gapNot, spelled, gap, rest);
  }

  /** AS, the hint and the body. */
  lemma AsStep(c: Cte, after: seq<Tok>)
    requires PartsOk(c) && Lexes(BodyToks(c, after))
    ensures var s := Clean(AsToks(c, after));
      && Solid(s) && IsLetter(s[0])
      && AfterAs(s) == Some(Clean(HintToks(c.hint, BodyToks(c, after))))
      && AfterBody(AfterHint(AfterAs(s).value)) == Some(Clean(c.gapBody + after))
  {
    var body := BodyToks(c, after);
    var hinted := HintToks(c.hint, body);
    ParensText(c.body, c.gapBody + after);
    HintStep(c.hint, body);
    WordIsSolid(c.as_, "as", c.gapAs + hinted);
    SkipGap(c.gapAs, hinted);
    BodyStep(c, after);
  }

  /** The optional column list, after its gap. */
  lemma ColumnStep(gap: seq<Tok>, columns: Columns, rest: seq<Tok>)
    requires IsGap(gap) && Solid(Clean(rest)) && IsLetter(Clean(rest)[0])
    requires columns.Columns? ==> BodyOk(columns.list) && IsGap(columns.gap) && Lexes(ColumnToks(columns, rest))
    ensures SkipSpaces(AfterColumns(Clean(gap + ColumnToks(columns, rest)))) == Clean(rest)
  {
    match columns
    case NoColumns => SkipGap(gap, rest);
    case Columns(list, gap2) =>
      ParensAreSolid(list, gap2 + rest);
      SkipGap(gap, ColumnToks(columns, rest));
      SkipGap(gap2, rest);
  }

  /** What follows a bare name is not a name character. */
  lemma NameEnds(c: Cte, after: seq<Tok>)
    requires PartsOk(c) && c.name.Bare?
    ensures var s := Clean(c.gapName + ColumnToks(c.columns, AsToks(c, after))); s != "" && !IsIdentChar(s[0])
  {
    var rest := ColumnToks(c.columns, AsToks(c, after));
    CleanJoin(c.gapName, rest);
    GapIsSpace(c.gapName);
    if c.columns.Columns? { ParensText(c.columns.list, c.columns.gap + AsToks(c, after)); }
  }

  /** The name is read, up to white space at its front. */
  lemma NameStep(c: Cte, after: seq<Tok>)
    requires CteOk(c) && NameReads(c.name) && Lexes(CteToks(c, after))
    ensures var r := ReadName(Clean(CteToks(c, after))); r.Some? && r.value.rest == Clean(c.gapName + ColumnToks(c.columns, AsToks(c, after)))
  {
    var rest := c.gapName + ColumnToks(c.columns, AsToks(c, after));
    CleanJoin(NameToks(c.name), rest);
    match c.name
    case Bare(text) =>
      CleanWord(text);
      NameEnds(c, after);
      BareNameIsReadIff(text, Clean(rest));
    case Delimited(open, text) => DelimitedStep(open, text, rest);
  }

  lemma DelimitedStep(open: char, text: string, rest: seq<Tok>)
    requires OpensName(open) && Quotable(open, text) && Lexes([Quote(open, text)] + rest)
    ensures var r := ReadName(Clean([Quote(open, text)] + rest)); r.Some? && r.value.rest == Clean(rest)
  {
    Cons(Quote(open, text), rest);
    NextKept(Quote(open, text), rest);
    QuotedNameRoundTrip(open, text, "", Clean(rest));
    assert "" + Quoted(open, text) + Clean(rest) == Quoted(open, text) + Clean(rest);
  }

  lemma PartsLex(c: Cte, after: seq<Tok>)
    requires Lexes(CteToks(c, after))
    ensures c.columns.Columns? ==> Lexes(ColumnToks(c.columns, AsToks(c, after)))
    ensures Lexes(BodyToks(c, after)) && Lexes(after)
  {
    var asToks := AsToks(c, after);
    LexesTail(NameToks(c.name), c.gapName + ColumnToks(c.columns, asToks));
    LexesTail(c.gapName, ColumnToks(c.columns, asToks));
    if c.columns.Columns? {
      LexesTail(Parens(c.columns.list), c.columns.gap + asToks);
      LexesTail(c.columns.gap, asToks);
    }
    AsLexes(c, after);
  }

  lemma AsLexes(c: Cte, after: seq<Tok>)
    requires Lexes(AsToks(c, after))
    ensures Lexes(BodyToks(c, after)) && Lexes(after)
  {
    var body := BodyToks(c, after);
    LexesTail(Word(c.as_), c.gapAs + HintToks(c.hint, body));
    LexesTail(c.gapAs, HintToks(c.hint, body));
    HintLexes(c.hint, body);
    LexesTail(Parens(c.body), c.gapBody + after);
    LexesTail(c.gapBody, after);
  }

  lemma HintLexes(h: Hint, rest: seq<Tok>)
    requires Lexes(HintToks(h, rest))
    ensures Lexes(rest)
  {
    match h
    case NoHint =>
    case Materialized(spelled, gap) =>
      LexesTail(Word(spelled), gap + rest);
      LexesTail(gap, rest);
    case NotMaterialized(not_, gapNot, spelled, gap) =>
      LexesTail(Word(not_), gapNot + (Word(spelled) + (gap + rest)));
      LexesTail(gapNot, Word(spelled) + (gap + rest));
      LexesTail(Word(spelled), gap + rest);
      LexesTail(gap, rest);
  }

  /** One whole expression is skipped exactly. */
  lemma CteStep(c: Cte, after: seq<Tok>)
    requires CteOk(c) && NameReads(c.name) && Lexes(CteToks(c, after))
    ensures AfterCte(Clean(CteToks(c, after))) == Some(Clean(c.gapBody + after))
  {
    PartsLex(c, after);
    NameStep(c, after);
    AsStep(c, after);
    ColumnStep(c.gapName, c.columns, AsToks(c, after));
    AsAfterSpaces(AfterColumns(Clean(c.gapName + ColumnToks(c.columns, AsToks(c, after)))));
  }

  lemma {:induction false} SkipTwice(s: string)
    ensures SkipSpaces(SkipSpaces(s)) == SkipSpaces(s)
  {
  }

  lemma AsAfterSpaces(s: string)
    ensures AfterAs(SkipSpaces(s)) == AfterAs(s)
  {
    SkipTwice(s);
  }

  // ---- the whole clause ----

  /** The expressions from `first` on, then `after`. */
  function CtesToks(first: Cte, more: seq<(seq<Tok>, Cte)>, after: seq<Tok>): seq<Tok>
    decreases |more|
  {
    CteToks(first, if more == [] then after else [Plain(',')] + (more[0].0 + CtesToks(more[0].1, more[1..], after)))
  }

  /** What follows the last body. */
  function Remainder(first: Cte, more: seq<(seq<Tok>, Cte)>, after: seq<Tok>): seq<Tok> {
    (if more == [] then first.gapBody else more[|more| - 1].1.gapBody) + after
  }

  predicate CtesOk(first: Cte, more: seq<(seq<Tok>, Cte)>) {
    CteOk(first) && forall i | 0 <= i < |more| :: IsGap(more[i].0) && CteOk(more[i].1)
  }

  predicate AllRead(first: Cte, more: seq<(seq<Tok>, Cte)>) {
    NameReads(first.name) && forall i | 0 <= i < |more| :: NameReads(more[i].1.name)
  }

  lemma {:induction false} SkipsAllSpaces(s: string)
    requires AllSpaces(s)
    ensures SkipSpaces(s) == ""
  {
    if s != "" { SkipsAllSpaces(s[1..]); }
  }

  /** Leading white space is skipped anyway. */
  lemma GapBeforeCtes(g: seq<Tok>, toks: seq<Tok>)
    requires IsGap(g)
    ensures AfterCtes(SkipSpaces(Clean(g + toks))) == AfterCtes(Clean(toks))
  {
    CleanJoin(g, toks);
    GapIsSpace(g);
    SkipsAllSpaces(Clean(g));
    SkipSpacesAll(Clean(g), Clean(toks));
    SpacesBeforeCtes(Clean(toks));
  }

  lemma SpacesBeforeCtes(s: string)
    ensures AfterCtes(SkipSpaces(s)) == AfterCtes(s)
  {
    SpacesBeforeCte(s);
  }

  lemma SpacesBeforeCte(s: string)
    ensures AfterCte(SkipSpaces(s)) == AfterCte(s)
  {
    SpacesBeforeName(s);
  }

  lemma SpacesBeforeName(s: string)
    ensures ReadName(SkipSpaces(s)) == ReadName(s)
  {
    SkipTwice(s);
  }

  /** After the last expression the parser stops; a statement does not begin with a comma. */
  predicate StartsStatement(after: seq<Tok>) { Solid(Clean(after)) && Clean(after)[0] != ',' }

  /** The parser's loop, one round. */
  lemma LastRound(s: string, one: string)
    requires AfterCte(s) == Some(one) && (SkipSpaces(one) == "" || SkipSpaces(one)[0] != ',')
    ensures AfterCtes(s) == Some(one)
  {
  }

  lemma OneRound(s: string, one: string)
    requires AfterCte(s) == Some(one) && SkipSpaces(one) != "" && SkipSpaces(one)[0] == ','
    ensures AfterCtes(s) == AfterCtes(SkipSpaces(SkipSpaces(one)[1..]))
  {
  }

  lemma {:induction false} CtesStep(first: Cte, more: seq<(seq<Tok>, Cte)>, after: seq<Tok>)
    requires CtesOk(first, more) && AllRead(first, more) && Lexes(CtesToks(first, more, after)) && StartsStatement(after)
    ensures AfterCtes(Clean(CtesToks(first, more, after))) == Some(Clean(Remainder(first, more, after)))
    decreases |more|
  {
    if more == [] {
      CteStep(first, after);
      SkipGap(first.gapBody, after);
      LastRound(Clean(CteToks(first, after)), Clean(first.gapBody + after));
    } else {
      var next := CtesToks(more[0].1, more[1..], after);
      MoreStep(first, more[0].0, next);
      CtesStep(more[0].1, more[1..], after);
      LastAfterComma(first, more, after);
    }
  }

  lemma MoreStep(first: Cte, gap: seq<Tok>, next: seq<Tok>)
    requires CteOk(first) && NameReads(first.name) && IsGap(gap) && Lexes(CteToks(first, [Plain(',')] + (gap + next)))
    ensures Lexes(next) && AfterCtes(Clean(CteToks(first, [Plain(',')] + (gap + next)))) == AfterCtes(Clean(next))
  {
    var tail := [Plain(',')] + (gap + next);
    CteStep(first, tail);
    PartsLex(first, tail);
    LexesTail([Plain(',')], gap + next);
    LexesTail(gap, next);
    CommaStep(first.gapBody, gap, next);
    OneRound(Clean(CteToks(first, tail)), Clean(first.gapBody + tail));
  }

  lemma LastAfterComma(first: Cte, more: seq<(seq<Tok>, Cte)>, after: seq<Tok>)
    requires more != []
    ensures Remainder(first, more, after) == Remainder(more[0].1, more[1..], after)
  {
  }

  lemma CommaStep(gap: seq<Tok>, g: seq<Tok>, next: seq<Tok>)
    requires IsGap(gap) && IsGap(g)
    ensures var t := SkipSpaces(Clean(gap + ([Plain(',')] + (g + next))));
      t != "" && t[0] == ',' && AfterCtes(SkipSpaces(t[1..])) == AfterCtes(Clean(next))
  {
    Cons(Plain(','), g + next);
    SkipGap(gap, [Plain(',')] + (g + next));
    GapBeforeCtes(g, next);
    DropPrefix(",", Clean(g + next));
  }

  // ---- the keywords in front ----

  function RecursionToks(r: Recursion, ctes: seq<Tok>): seq<Tok> { if r.NotRecursive? then ctes else Word(r.spelled) + (r.gap + ctes) }

  function WithToks(w: With, after: seq<Tok>): seq<Tok> {
    Word(w.spelled) + (w.gap + RecursionToks(w.recursion, CtesToks(w.first, w.more, after)))
  }

  /** A keyword may stand directly before a delimited name, and nowhere else directly
      before the next token. */
  predicate WithOk(w: With) {
    && Lower(w.spelled) == "with" && IsGap(w.gap) && CtesOk(w.first, w.more)
    && (w.recursion.Recursive? ==> Lower(w.recursion.spelled) == "recursive" && IsGap(w.recursion.gap))
    && (w.gap == [] ==> w.recursion.NotRecursive? && w.first.name.Delimited?)
    && (w.recursion.Recursive? && w.recursion.gap == [] ==> w.first.name.Delimited?)
  }

  /** Every keyword in front has white space after it. */
  predicate Spaced(w: With) { w.gap != [] && (w.recursion.Recursive? ==> w.recursion.gap != []) }

  /** The parser takes the beginning of the first name for RECURSIVE: before what it counts
      as white space, which a bare name may contain, or before a gap. */
  predicate Swallowed(w: With) {
    w.recursion.NotRecursive? && w.first.name.Bare?
    && var name := SkipSpaces(w.first.name.text);
      StartsWith(name, "recursive") && (if |name| > 9 then IsSpace(name[9]) else w.first.gapName != [])
  }

  /** The first expression as the parser comes to see it. */
  function FirstRead(w: With): Cte {
    if Swallowed(w) then w.first.(name := Bare(SkipSpaces(w.first.name.text)[9..])) else w.first
  }

  /** The exact condition: keywords set off, and every name one that the parser reads. */
  predicate Reads(w: With) { Spaced(w) && AllRead(FirstRead(w), w.more) }

  lemma TextOfCte(c: Cte, after: seq<Tok>)
    requires c.name.Bare?
    ensures Clean(CteToks(c, after)) == c.name.text + Clean(c.gapName + ColumnToks(c.columns, AsToks(c, after)))
  {
    SpelledThen(c.name.text, c.gapName + ColumnToks(c.columns, AsToks(c, after)));
  }

  /** What follows a bare name begins, after white space, with its columns or with AS. */
  lemma AfterName(c: Cte, after: seq<Tok>)
    requires PartsOk(c)
    ensures var u := SkipSpaces(Clean(c.gapName + ColumnToks(c.columns, AsToks(c, after))));
      u != "" && (if c.columns.Columns? then u[0] == '(' else u == Clean(AsToks(c, after)) && LowerChar(u[0]) == 'a')
  {
    var rest := ColumnToks(c.columns, AsToks(c, after));
    if c.columns.Columns? { ParensText(c.columns.list, c.columns.gap + AsToks(c, after)); }
    else { WordIsSolid(c.as_, "as", c.gapAs + HintToks(c.hint, BodyToks(c, after))); }
    SkipGap(c.gapName, rest);
  }

  /** A first name that is not taken for RECURSIVE. */
  lemma FirstNameIsNotRecursive(w: With, after: seq<Tok>)
    requires WithOk(w) && w.recursion.NotRecursive? && !Swallowed(w)
    ensures var u := SkipSpaces(Clean(CteToks(w.first, after))); !(StartsWith(u, "recursive") && |u| > 9 && IsSpace(u[9]))
  {
    var c := w.first;
    var rest := c.gapName + ColumnToks(c.columns, AsToks(c, after));
    match c.name
    case Bare(text) =>
      TextOfCte(c, after);
      NameEnds(c, after);
      if SkipSpaces(text) == "" {
        SkipSpacesAll(text, Clean(rest));
        AfterName(c, after);
        StartsAlike(SkipSpaces(Clean(rest)), "recursive");
      } else {
        SkipSpacesPrefix(text, Clean(rest));
        NotSwallowed(SkipSpaces(text), c, after);
      }
    case Delimited(open, text) =>
      Cons(Quote(open, text), rest);
      var u := Clean([Quote(open, text)] + rest);
      assert u[0] == open;
      StartsAlike(u, "recursive");
  }

  lemma NotSwallowed(name: string, c: Cte, after: seq<Tok>)
    requires PartsOk(c) && c.name.Bare? && name != ""
    requires !(StartsWith(name, "recursive") && (if |name| > 9 then IsSpace(name[9]) else c.gapName != []))
    ensures var u := name + Clean(c.gapName + ColumnToks(c.columns, AsToks(c, after))); !(StartsWith(u, "recursive") && |u| > 9 && IsSpace(u[9]))
  {
    var rest := Clean(c.gapName + ColumnToks(c.columns, AsToks(c, after)));
    NameEnds(c, after);
    if |name| == 9 && c.gapName == [] { AfterName(c, after); NoGap(c.gapName, ColumnToks(c.columns, AsToks(c, after))); ParensFirst(c, after); }
    else { BareIsNotRecursive(name, rest); }
  }

  lemma ParensFirst(c: Cte, after: seq<Tok>)
    requires PartsOk(c) && c.name.Bare? && c.gapName == []
    ensures var s := Clean(c.gapName + ColumnToks(c.columns, AsToks(c, after))); s != "" && s[0] == '('
  {
    NoGap(c.gapName, ColumnToks(c.columns, AsToks(c, after)));
    ParensText(c.columns.list, c.columns.gap + AsToks(c, after));
  }

  lemma BareIsNotRecursive(name: string, rest: string)
    requires name != "" && rest != "" && !IsIdentChar(rest[0])
    requires |name| >= 9 ==> !StartsWith(name, "recursive") || (|name| > 9 && !IsSpace(name[9]))
    ensures var u := name + rest; !(StartsWith(u, "recursive") && |u| > 9 && IsSpace(u[9]))
  {
    var u := name + rest;
    if |name| < 9 {
      assert u[|name|] == rest[0] && LowerChar(rest[0]) == rest[0] && !('a' <= rest[0] <= 'z');
      StartsDiffer(u, "recursive", |name|);
    } else {
      assert u[..9] == name[..9];
    }
  }

  lemma SwallowedText(name: string, rest: string)
    requires StartsWith(name, "recursive") && (if |name| > 9 then IsSpace(name[9]) else rest != "" && IsSpace(rest[0]))
    ensures var u := name + rest; StartsWith(u, "recursive") && |u| > 9 && IsSpace(u[9]) && u[9..] == name[9..] + rest
  {
    assert (name + rest)[..9] == name[..9];
  }

  /** A swallowed beginning leaves the rest of the name. */
  lemma SwallowedStep(w: With, after: seq<Tok>)
    requires WithOk(w) && Swallowed(w)
    ensures var u := SkipSpaces(Clean(CteToks(w.first, after)));
      StartsWith(u, "recursive") && |u| > 9 && IsSpace(u[9]) && SkipSpaces(u[9..]) == SkipSpaces(Clean(CteToks(FirstRead(w), after)))
  {
    var c := w.first;
    var name, rest := SkipSpaces(c.name.text), Clean(c.gapName + ColumnToks(c.columns, AsToks(c, after)));
    TextOfCte(c, after);
    TextOfCte(FirstRead(w), after);
    SkipSpacesPrefix(c.name.text, rest);
    if |name| == 9 { GapFirst(c.gapName, ColumnToks(c.columns, AsToks(c, after))); }
    SwallowedText(name, rest);
  }

  lemma GapFirst(g: seq<Tok>, more: seq<Tok>)
    requires IsGap(g) && g != []
    ensures var s := Clean(g + more); s != "" && IsSpace(s[0])
  {
    CleanJoin(g, more);
    GapIsSpace(g);
  }

  lemma RecursionStep(w: With, after: seq<Tok>)
    requires WithOk(w) && Spaced(w)
    ensures var u := SkipSpaces(Clean(w.gap + RecursionToks(w.recursion, CteToks(w.first, after))));
      SkipSpaces(Clean(CteToks(FirstRead(w), after))) == if StartsWith(u, "recursive") && |u| > 9 && IsSpace(u[9]) then SkipSpaces(u[9..]) else u
  {
    var ctes := CteToks(w.first, after);
    match w.recursion
    case NotRecursive =>
      SkipGapLoosely(w.gap, ctes);
      if Swallowed(w) { SwallowedStep(w, after); } else { FirstNameIsNotRecursive(w, after); }
    case Recursive(spelled, gapR) =>
      WordIsSolid(spelled, "recursive", gapR + ctes);
      SkipGap(w.gap, Word(spelled) + (gapR + ctes));
      CleanJoin(gapR, ctes);
      GapIsSpace(gapR);
      SkipGapLoosely(gapR, ctes);
  }

  lemma SkipGapLoosely(g: seq<Tok>, toks: seq<Tok>)
    requires IsGap(g)
    ensures SkipSpaces(Clean(g + toks)) == SkipSpaces(Clean(toks))
  {
    CleanJoin(g, toks);
    GapIsSpace(g);
    SkipsAllSpaces(Clean(g));
    SkipSpacesAll(Clean(g), Clean(toks));
  }

  /** What the first expression is followed by. */
  function TailToks(more: seq<(seq<Tok>, Cte)>, after: seq<Tok>): seq<Tok> {
    if more == [] then after else [Plain(',')] + (more[0].0 + CtesToks(more[0].1, more[1..], after))
  }

  lemma WithStep(w: With, after: seq<Tok>)
    requires WithOk(w) && Spaced(w)
    ensures var s := Clean(WithToks(w, after)); LeadsWith(s) && AfterCtes(AfterWith(s)) == AfterCtes(Clean(CtesToks(FirstRead(w), w.more, after)))
  {
    var ctes := CtesToks(w.first, w.more, after);
    assert ctes == CteToks(w.first, TailToks(w.more, after));
    var rest := w.gap + RecursionToks(w.recursion, ctes);
    WordIsSolid(w.spelled, "with", rest);
    CleanJoin(w.gap, RecursionToks(w.recursion, ctes));
    GapIsSpace(w.gap);
    var s := w.spelled + Clean(rest);
    assert s[4] == Clean(w.gap)[0];
    RecursionStep(w, TailToks(w.more, after));
    SpacesBeforeCtes(Clean(CtesToks(FirstRead(w), w.more, after)));
  }

  lemma {:induction false} WordSplits(s: string, k: nat)
    requires k <= |s|
    ensures Word(s) == Word(s[..k]) + Word(s[k..])
  {
    if k > 0 {
      WordSplits(s[1..], k - 1);
      assert s[..k][1..] == s[1..][..k - 1] && s[k..] == s[1..][k - 1..];
    }
  }

  /** The end of a word, before the same tokens, lexes as the word does. */
  lemma WordEndLexes(text: string, k: nat, rest: seq<Tok>)
    requires k <= |text| && Lexes(Word(text) + rest)
    ensures Lexes(Word(text[k..]) + rest)
  {
    WordSplits(text, k);
    assert (Word(text[..k]) + Word(text[k..])) + rest == Word(text[..k]) + (Word(text[k..]) + rest);
    LexesTail(Word(text[..k]), Word(text[k..]) + rest);
  }

  /** The rest of a swallowed name is a bare name again, if there is any. */
  lemma FirstReadIsOk(w: With)
    requires WithOk(w) && Reads(w)
    ensures CteOk(FirstRead(w))
  {
    if Swallowed(w) { SwallowedRestIsOk(w); }
  }

  lemma FirstReadLexes(w: With, after: seq<Tok>)
    requires Lexes(CtesToks(w.first, w.more, after))
    ensures Lexes(CtesToks(FirstRead(w), w.more, after))
  {
    if Swallowed(w) { CteEndLexes(w.first, FirstRead(w), TailToks(w.more, after)); }
  }

  lemma CteEndLexes(c: Cte, d: Cte, after: seq<Tok>)
    requires c.name.Bare? && |SkipSpaces(c.name.text)| >= 9 && d == c.(name := Bare(SkipSpaces(c.name.text)[9..])) && Lexes(CteToks(c, after))
    ensures Lexes(CteToks(d, after))
  {
    var text := c.name.text;
    SkipSpacesIsSuffix(text);
    var k := |text| - |SkipSpaces(text)| + 9;
    assert text[k..] == SkipSpaces(text)[9..];
    var rest := c.gapName + ColumnToks(c.columns, AsToks(c, after));
    assert AsToks(d, after) == AsToks(c, after);
    WordEndLexes(text, k, rest);
  }

  lemma ClauseLexes(w: With, after: seq<Tok>)
    requires Lexes(WithToks(w, after))
    ensures Lexes(CtesToks(w.first, w.more, after))
  {
    var ctes := CtesToks(w.first, w.more, after);
    LexesTail(Word(w.spelled), w.gap + RecursionToks(w.recursion, ctes));
    LexesTail(w.gap, RecursionToks(w.recursion, ctes));
    if w.recursion.Recursive? {
      LexesTail(Word(w.recursion.spelled), w.recursion.gap + ctes);
      LexesTail(w.recursion.gap, ctes);
    }
  }

  /** The main result: for every clause of the grammar that reads - any number of
      expressions, column lists, hints, recursion, quoted or bare names, balanced bodies,
      arbitrary white space and comments - skipping after stripping leaves exactly the gap
      after the last body and the statement, comments stripped. */
  lemma SkipsExactlyTheClause(w: With, after: seq<Tok>)
    requires WithOk(w) && Reads(w) && Lexes(WithToks(w, after)) && StartsStatement(after)
    ensures SkipLeadingCte(Strip(Print(WithToks(w, after)))) == Clean(Remainder(w.first, w.more, after))
  {
    StripPrinted(WithToks(w, after));
    ClauseLexes(w, after);
    WithStep(w, after);
    FirstReadIsOk(w);
    FirstReadLexes(w, after);
    CtesStep(FirstRead(w), w.more, after);
  }

  // ---- when a name is not read ----

  /** What comes next is not taken for AS. */
  predicate NotAs(after: seq<Tok>) { !StartsWith(SkipSpaces(Clean(after)), "as") }

  lemma NotAsAfterGap(g: seq<Tok>, after: seq<Tok>)
    requires IsGap(g) && NotAs(after)
    ensures AfterAs(Clean(g + after)).None?
  {
    SkipGapLoosely(g, after);
  }

  /** A text that is no name for the parser: nothing but its white space, or then a digit. */
  lemma NoNameThere(name: string, rest: string)
    requires (forall i | 0 <= i < |name| :: IsIdentChar(name[i])) && !Readable(name) && SkipSpaces(name) != ""
    ensures ReadName(name + rest).None?
  {
    SkipSpacesPrefix(name, rest);
    SkipSpacesKeepsIdent(name);
  }

  lemma SingleQuoteIsNoName(text: string, rest: seq<Tok>)
    ensures ReadName(Clean([Quote('\'', text)] + rest)).None?
  {
    Cons(Quote('\'', text), rest);
  }

  /** After a name of white space only, AS is read as the name, and then there is no AS. */
  lemma AsIsReadAsName(c: Cte, after: seq<Tok>)
    requires PartsOk(c) && c.columns.NoColumns? && NotAs(after) && Lexes(BodyToks(c, after))
    ensures AfterCte(Clean(AsToks(c, after))).None?
  {
    var hinted := HintToks(c.hint, BodyToks(c, after));
    var rest := Clean(c.gapAs + hinted);
    ParensText(c.body, c.gapBody + after);
    HintStep(c.hint, BodyToks(c, after));
    WordIsSolid(c.as_, "as", c.gapAs + hinted);
    WordIsBare(c.as_, "as");
    CleanJoin(c.gapAs, hinted);
    GapIsSpace(c.gapAs);
    HintIsSetOff(c, after);
    ReadBare(c.as_, rest);
    SkipGap(c.gapAs, hinted);
    if c.hint.NoHint? {
      ParensAreSolid(c.body, c.gapBody + after);
      NotAsAfterGap(c.gapBody, after);
    } else {
      HintIsNotAs(c.hint, BodyToks(c, after));
    }
  }

  lemma HintIsSetOff(c: Cte, after: seq<Tok>)
    requires PartsOk(c)
    ensures var s := Clean(c.gapAs + HintToks(c.hint, BodyToks(c, after))); s != "" && !IsIdentChar(s[0])
  {
    var hinted := HintToks(c.hint, BodyToks(c, after));
    CleanJoin(c.gapAs, hinted);
    GapIsSpace(c.gapAs);
    if c.hint.NoHint? { ParensText(c.body, c.gapBody + after); }
  }

  lemma HintIsNotAs(h: Hint, rest: seq<Tok>)
    requires HintOk(h) && !h.NoHint?
    ensures var s := Clean(HintToks(h, rest)); Solid(s) && s[0] != '(' && !StartsWith(s, "as")
  {
    match h
    case Materialized(spelled, gap) => WordIsSolid(spelled, "materialized", gap + rest);
    case NotMaterialized(not_, gapNot, spelled, gap) => WordIsSolid(not_, "not", gapNot + (Word(spelled) + (gap + rest)));
  }

  /** An expression whose name is not read is not skipped. */
  lemma NameFails(c: Cte, after: seq<Tok>)
    requires PartsOk(c) && !NameReads(c.name) && NotAs(after) && Lexes(CteToks(c, after))
    requires if c.name.Bare? then forall i | 0 <= i < |c.name.text| :: IsIdentChar(c.name.text[i]) else IsQuoteOpen(c.name.open)
    ensures AfterCte(Clean(CteToks(c, after))).None?
  {
    var rest := c.gapName + ColumnToks(c.columns, AsToks(c, after));
    if c.name.Delimited? {
      SingleQuoteIsNoName(c.name.text, rest);
    } else {
      TextOfCte(c, after);
      if SkipSpaces(c.name.text) != "" { NoNameThere(c.name.text, Clean(rest)); }
      else { WhiteNameFails(c, after); }
    }
  }

  lemma WhiteNameFails(c: Cte, after: seq<Tok>)
    requires PartsOk(c) && c.name.Bare? && SkipSpaces(c.name.text) == "" && NotAs(after) && Lexes(CteToks(c, after))
    ensures AfterCte(Clean(CteToks(c, after))).None?
  {
    var rest := c.gapName + ColumnToks(c.columns, AsToks(c, after));
    TextOfCte(c, after);
    SkipSpacesAll(c.name.text, Clean(rest));
    AfterName(c, after);
    SpacesBeforeCte(Clean(CteToks(c, after)));
    if c.columns.NoColumns? {
      PartsLex(c, after);
      AsIsReadAsName(c, after);
    } else {
      ParenIsNoName(SkipSpaces(Clean(CteToks(c, after))));
    }
  }

  lemma ParenIsNoName(s: string)
    requires s != "" && s[0] == '('
    ensures AfterCte(s).None?
  {
  }

  lemma TailIsNotAs(more: seq<(seq<Tok>, Cte)>, after: seq<Tok>)
    requires NotAs(after)
    ensures NotAs(TailToks(more, after))
  {
    if more != [] { Cons(Plain(','), more[0].0 + CtesToks(more[0].1, more[1..], after)); }
  }

  predicate NameForm(n: Name) {
    if n.Bare? then forall i | 0 <= i < |n.text| :: IsIdentChar(n.text[i]) else IsQuoteOpen(n.open)
  }

  lemma {:induction false} CtesFail(first: Cte, more: seq<(seq<Tok>, Cte)>, after: seq<Tok>)
    requires PartsOk(first) && NameForm(first.name) && (NameReads(first.name) ==> CteOk(first))
    requires (forall i | 0 <= i < |more| :: IsGap(more[i].0) && CteOk(more[i].1)) && !AllRead(first, more)
    requires Lexes(CtesToks(first, more, after)) && NotAs(after)
    ensures AfterCtes(Clean(CtesToks(first, more, after))).None?
    decreases |more|
  {
    if !NameReads(first.name) {
      TailIsNotAs(more, after);
      NameFails(first, TailToks(more, after));
    } else {
      assert more != [];
      MoreStep(first, more[0].0, CtesToks(more[0].1, more[1..], after));
      CtesFail(more[0].1, more[1..], after);
    }
  }

  lemma UnreadClauseIsNotSkipped(w: With, after: seq<Tok>)
    requires WithOk(w) && Spaced(w) && !Reads(w) && Lexes(WithToks(w, after)) && NotAs(after)
    ensures AfterCtes(AfterWith(Clean(WithToks(w, after)))).None?
  {
    ClauseLexes(w, after);
    WithStep(w, after);
    FirstReadLexes(w, after);
    FirstReadForm(w);
    CtesFail(FirstRead(w), w.more, after);
  }

  lemma FirstReadForm(w: With)
    requires WithOk(w) && Spaced(w)
    ensures PartsOk(FirstRead(w)) && NameForm(FirstRead(w).name) && (NameReads(FirstRead(w).name) ==> CteOk(FirstRead(w)))
  {
    if Swallowed(w) {
      SkipSpacesKeepsIdent(w.first.name.text);
      if NameReads(FirstRead(w).name) { SwallowedRestIsOk(w); }
    }
  }

  lemma SwallowedRestIsOk(w: With)
    requires WithOk(w) && Swallowed(w) && NameReads(FirstRead(w).name)
    ensures CteOk(FirstRead(w))
  {
    var name := SkipSpaces(w.first.name.text);
    SkipSpacesKeepsIdent(w.first.name.text);
    assert forall i | 0 <= i < |name[9..]| :: name[9..][i] == name[9 + i];
  }

  // ---- when a keyword touches a quoted name ----

  lemma BareWordStops(word: string, rest: string)
    requires IsBare(word) && Solid(word) && rest != "" && IsQuoteOpen(rest[0])
    ensures AfterCtes(word + rest).None?
  {
    ReadBare(word, rest);
    QuoteIsNotAs(rest);
  }

  lemma QuoteIsNotAs(rest: string)
    requires rest != "" && IsQuoteOpen(rest[0])
    ensures AfterAs(AfterColumns(rest)).None?
  {
    assert SkipSpaces(rest) == rest;
    StartsAlike(rest, "as");
  }

  lemma DelimitedFirst(w: With, after: seq<Tok>)
    requires WithOk(w) && w.first.name.Delimited?
    ensures var s := Clean(CtesToks(w.first, w.more, after)); s != "" && IsQuoteOpen(s[0])
  {
    var c := w.first;
    var tail := if w.more == [] then after else [Plain(',')] + (w.more[0].0 + CtesToks(w.more[0].1, w.more[1..], after));
    Cons(Quote(c.name.open, c.name.text), c.gapName + ColumnToks(c.columns, AsToks(c, tail)));
  }

  lemma WordIsBare(spelled: string, word: string)
    requires Lower(spelled) == word && word != "" && forall i | 0 <= i < |word| :: 'a' <= word[i] <= 'z'
    ensures IsBare(spelled) && Solid(spelled)
  {
    assert forall i | 0 <= i < |spelled| :: LowerChar(spelled[i]) == word[i];
  }

  lemma WithTouched(spelled: string, rest: string)
    requires Lower(spelled) == "with" && rest != "" && IsQuoteOpen(rest[0])
    ensures AfterWith(spelled + rest) == spelled + rest
  {
    var s := spelled + rest;
    WordIsBare(spelled, "with");
    assert Solid(s) && s[4] == rest[0];
  }

  lemma WithThenRecursive(spelled: string, gap: string, recursive: string, rest: string)
    requires Lower(spelled) == "with" && gap != "" && AllSpaces(gap) && Lower(recursive) == "recursive" && rest != "" && IsQuoteOpen(rest[0])
    ensures AfterWith(spelled + (gap + (recursive + rest))) == recursive + rest
  {
    var u := recursive + rest;
    var s := spelled + (gap + u);
    WordIsBare(spelled, "with");
    WordIsBare(recursive, "recursive");
    assert Solid(s) && s[4] == gap[0] && Solid(u) && u[9] == rest[0];
    StartsWithSpelled(spelled, "with", gap + u);
    SkipSpacesOver(gap, u);
  }

  /** SQL lets a quoted name touch WITH or RECURSIVE; the parser then gives the text back
      unchanged. */
  lemma TouchingKeywordIsNotSkipped(w: With, after: seq<Tok>)
    requires WithOk(w) && !Spaced(w)
    ensures SkipLeadingCte(Clean(WithToks(w, after))) == Clean(WithToks(w, after))
  {
    if w.gap == [] { TouchingWith(w, after); } else { TouchingRecursive(w, after); }
  }

  lemma TouchingWith(w: With, after: seq<Tok>)
    requires WithOk(w) && w.gap == []
    ensures AfterCtes(AfterWith(Clean(WithToks(w, after)))).None?
  {
    var ctes := CtesToks(w.first, w.more, after);
    DelimitedFirst(w, after);
    SpelledThen(w.spelled, w.gap + ctes);
    NoGap(w.gap, ctes);
    WithStops(w.spelled, Clean(ctes));
  }

  lemma WithStops(spelled: string, rest: string)
    requires Lower(spelled) == "with" && rest != "" && IsQuoteOpen(rest[0])
    ensures AfterCtes(AfterWith(spelled + rest)).None?
  {
    WithTouched(spelled, rest);
    WordIsBare(spelled, "with");
    BareWordStops(spelled, rest);
  }

  lemma TouchingRecursive(w: With, after: seq<Tok>)
    requires WithOk(w) && w.gap != [] && w.recursion.Recursive? && w.recursion.gap == []
    ensures AfterCtes(AfterWith(Clean(WithToks(w, after)))).None?
  {
    var ctes := Clean(CtesToks(w.first, w.more, after));
    DelimitedFirst(w, after);
    GapIsSpace(w.gap);
    TouchingText(w, after);
    WithThenRecursive(w.spelled, Clean(w.gap), w.recursion.spelled, ctes);
    RecursiveStops(w.recursion.spelled, ctes);
  }

  lemma RecursiveStops(recursive: string, rest: string)
    requires Lower(recursive) == "recursive" && rest != "" && IsQuoteOpen(rest[0])
    ensures AfterCtes(recursive + rest).None?
  {
    WordIsBare(recursive, "recursive");
    BareWordStops(recursive, rest);
  }

  lemma TouchingText(w: With, after: seq<Tok>)
    requires w.recursion.Recursive? && w.recursion.gap == []
    ensures Clean(WithToks(w, after)) == w.spelled + (Clean(w.gap) + (w.recursion.spelled + Clean(CtesToks(w.first, w.more, after))))
  {
    var ctes := CtesToks(w.first, w.more, after);
    var r := w.recursion;
    SpelledThen(r.spelled, r.gap + ctes);
    NoGap(r.gap, ctes);
    CleanJoin(w.gap, Word(r.spelled) + (r.gap + ctes));
    SpelledThen(w.spelled, w.gap + (Word(r.spelled) + (r.gap + ctes)));
  }

  lemma SpelledThen(spelled: string, more: seq<Tok>)
    ensures Clean(Word(spelled) + more) == spelled + Clean(more)
  {
    CleanJoin(Word(spelled), more);
    CleanWord(spelled);
  }

  lemma NoGap(g: seq<Tok>, toks: seq<Tok>)
    requires g == []
    ensures Clean(g + toks) == Clean(toks)
  {
    assert g + toks == toks;
  }

  /** So the clause is skipped exactly when its keywords are followed by white space or a
      comment and every name is one that the parser reads. */
  lemma SkipsTheClauseIff(w: With, after: seq<Tok>)
    requires WithOk(w) && Lexes(WithToks(w, after)) && StartsStatement(after) && NotAs(after)
    ensures Reads(w) <==> SkipLeadingCte(Strip(Print(WithToks(w, after)))) == Clean(Remainder(w.first, w.more, after))
  {
    if Reads(w) {
      SkipsExactlyTheClause(w, after);
    } else {
      StripPrinted(WithToks(w, after));
      if Spaced(w) { UnreadClauseIsNotSkipped(w, after); } else { TouchingKeywordIsNotSkipped(w, after); }
      RemainderIsShorter(w, after);
    }
  }

  /** The text begins with W, the remainder with the gap or the statement. */
  lemma RemainderIsShorter(w: With, after: seq<Tok>)
    requires WithOk(w)
    ensures |Clean(Remainder(w.first, w.more, after))| < |Clean(WithToks(w, after))|
  {
    var ctes := CtesToks(w.first, w.more, after);
    CtesLonger(w.first, w.more, after);
    var rec := RecursionToks(w.recursion, ctes);
    CleanJoin(Word(w.spelled), w.gap + rec);
    CleanWord(w.spelled);
    CleanJoin(w.gap, rec);
    if w.recursion.Recursive? {
      CleanJoin(Word(w.recursion.spelled), w.recursion.gap + ctes);
      CleanJoin(w.recursion.gap, ctes);
    }
  }

  lemma {:induction false} CtesLonger(first: Cte, more: seq<(seq<Tok>, Cte)>, after: seq<Tok>)
    ensures |Clean(Remainder(first, more, after))| <= |Clean(CtesToks(first, more, after))|
    decreases |more|
  {
    if more == [] {
      CteLonger(first, after);
    } else {
      var next := CtesToks(more[0].1, more[1..], after);
      var tail := [Plain(',')] + (more[0].0 + next);
      CtesLonger(more[0].1, more[1..], after);
      LastAfterComma(first, more, after);
      CteLonger(first, tail);
      CleanJoin(first.gapBody, tail);
      Cons(Plain(','), more[0].0 + next);
      CleanJoin(more[0].0, next);
    }
  }

  lemma CteLonger(c: Cte, after: seq<Tok>)
    ensures |Clean(c.gapBody + after)| <= |Clean(CteToks(c, after))|
  {
    var asToks := AsToks(c, after);
    CleanJoin(NameToks(c.name), c.gapName + ColumnToks(c.columns, asToks));
    CleanJoin(c.gapName, ColumnToks(c.columns, asToks));
    if c.columns.Columns? {
      CleanJoin(Parens(c.columns.list), c.columns.gap + asToks);
      CleanJoin(c.columns.gap, asToks);
    }
    AsLonger(c, after);
  }

  lemma AsLonger(c: Cte, after: seq<Tok>)
    ensures |Clean(c.gapBody + after)| <= |Clean(AsToks(c, after))|
  {
    var body := BodyToks(c, after);
    CleanJoin(Word(c.as_), c.gapAs + HintToks(c.hint, body));
    CleanJoin(c.gapAs, HintToks(c.hint, body));
    CleanJoin(Parens(c.body), c.gapBody + after);
    HintLonger(c.hint, body);
  }

  lemma HintLonger(h: Hint, rest: seq<Tok>)
    ensures |Clean(rest)| <= |Clean(HintToks(h, rest))|
  {
    match h
    case NoHint =>
    case Materialized(spelled, gap) =>
      CleanJoin(Word(spelled), gap + rest);
      CleanJoin(gap, rest);
    case NotMaterialized(not_, gapNot, spelled, gap) =>
      CleanJoin(Word(not_), gapNot + (Word(spelled) + (gap + rest)));
      CleanJoin(gapNot, Word(spelled) + (gap + rest));
      CleanJoin(Word(spelled), gap + rest);
      CleanJoin(gap, rest);
  }
}
