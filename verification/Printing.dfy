/** Printed text: every token's text lexes back to that token, hence the round trip of
    `parse_predicate` from characters to expression and back. */
module Printing {
  import opened Text
  import opened Ir
  import opened Lexer
  import opened PredParser
  import opened RoundTrip

  function TokText(t: Tok): string
  {
    match t
    case Ident(name) => name
    case StringLit(s) => var q := if '"' in s then '\'' else '"'; [q] + s + [q]
    case IntLit(i) => ShowInt(i)
    case FloatLit(lexeme) => lexeme
    case BoolLit(b) => if b then "true" else "false"
    case TEq => "==" case TNotEq => "!="
    case TGt => ">" case TGtEq => ">="
    case TLt => "<" case TLtEq => "<="
    case TAnd => "&" case TOr => "|" case TNot => "!"
    case LParen => "(" case RParen => ")" case Comma => ","
    case KwContains => "contains" case KwRequire => "require"
    case KwExists => "exists" case KwIn => "in"
  }

  /** Tokens the lexer can produce. */
  predicate Lexable(t: Tok)
  {
    match t
    case Ident(name) => IsKey(name)
    case StringLit(s) => Quotable(s)
    case IntLit(i) => IsI64(i)
    case FloatLit(lexeme) => IsFloatLexeme(lexeme)
    case _ => true
  }

  function Words(ts: seq<Tok>): (ws: seq<string>)
    ensures |ws| == |ts|
  {
    seq(|ts|, k requires 0 <= k < |ts| => TokText(ts[k]))
  }

  /** Words separated by single spaces. */
  function Spaced(ws: seq<string>): string
  {
    if ws == [] then ""
    else if |ws| == 1 then ws[0]
    else ws[0] + " " + Spaced(ws[1..])
  }

  function Render(ts: seq<Tok>): string { Spaced(Words(ts)) }

  function Print(e: Expression): string { Render(OrToks(e)) }

  /** Characters that end every token they follow. */
  predicate IsBreak(c: char) { c == ' ' || c == '(' }

  /** `x` stands at position `i` and is followed by a break or the end of the text. */
  ghost predicate Word(s: string, i: nat, x: string)
  {
    && i + |x| <= |s|
    && (forall k :: 0 <= k < |x| ==> s[i + k] == x[k])
    && (i + |x| < |s| ==> IsBreak(s[i + |x|]))
  }

  lemma WordSlice(s: string, i: nat, x: string)
    requires Word(s, i, x)
    ensures s[i..i + |x|] == x
  {
  }

  // ----- scanning a word is scanning it alone -----

  lemma {:induction false} SpanInWord(s: string, i: nat, x: string, k: nat, p: char -> bool)
    requires Word(s, i, x) && k <= |x| && !p(' ') && !p('(')
    ensures SpanEnd(s, i + k, p) == i + SpanEnd(x, k, p)
    decreases |x| - k
  {
    if k < |x| { SpanInWord(s, i, x, k + 1, p); }
  }

  lemma {:induction false} CloseInWord(s: string, i: nat, x: string, k: nat)
    requires Word(s, i, x) && k <= |x| && CloseFrom(x, k).Some?
    ensures CloseFrom(s, i + k) == Some(i + CloseFrom(x, k).value)
    decreases |x| - k
  {
    if k < |x| && x[k] != ']' { CloseInWord(s, i, x, k + 1); }
  }

  ghost predicate PathTo(s: string, i: nat, n: nat) { i <= |s| && PathEnd(s, i) == Some(n) }

  /** Past a bracketed group the path goes on. */
  lemma PathSkips(s: string, i: nat, n: nat, c: nat, end: nat)
    requires i <= n < |s| && n == SpanEnd(s, i, IsIdentCont) && s[n] == '[' && CloseFrom(s, n + 1) == Some(c)
    ensures PathTo(s, i, end) <==> PathTo(s, c + 1, end)
  {
  }

  lemma {:induction false} PathInWord(s: string, i: nat, x: string, k: nat)
    requires Word(s, i, x) && k <= |x| && PathTo(x, k, |x|)
    ensures PathTo(s, i + k, i + |x|)
    decreases |x| - k
  {
    SpanInWord(s, i, x, k, IsIdentCont);
    var n := SpanEnd(x, k, IsIdentCont);
    if n < |x| {
      var c := CloseFrom(x, n + 1).value;
      CloseInWord(s, i, x, n + 1);
      PathSkips(x, k, n, c, |x|);
      PathInWord(s, i, x, c + 1);
      PathSkips(s, i + k, i + n, i + c, i + |x|);
    }
  }

  lemma {:induction false} QuoteInWord(s: string, i: nat, x: string, k: nat, q: char)
    requires Word(s, i, x) && k < |x| && x[|x| - 1] == q && q !in x[k..|x| - 1]
    ensures FindFrom(s, i + k, q) == Some(i + |x| - 1)
    decreases |x| - k
  {
    if k < |x| - 1 {
      assert x[k] == x[k..|x| - 1][0];
      assert x[k + 1..|x| - 1] == x[k..|x| - 1][1..];
      QuoteInWord(s, i, x, k + 1, q);
    }
  }

  lemma NumberInWord(s: string, i: nat, x: string)
    requires Word(s, i, x) && x != [] && NumberEnd(x, 0) == |x|
    ensures NumberEnd(s, i) == i + |x|
  {
    SpanInWord(s, i, x, if x[0] == '-' then 1 else 0, IsDigit);
    assert IntEnd(s, i) == i + IntEnd(x, 0);
    var n := IntEnd(x, 0);
    if n < |x| { SpanInWord(s, i, x, n + 1, IsDigit); }
  }

  lemma {:induction false} SpanAll(x: string, k: nat, p: char -> bool)
    requires k <= |x| && forall j :: k <= j < |x| ==> p(x[j])
    ensures SpanEnd(x, k, p) == |x|
    decreases |x| - k
  {
    if k < |x| { SpanAll(x, k + 1, p); }
  }

  lemma IntIsNumber(i: int)
    requires IsI64(i)
    ensures var x := ShowInt(i);
      x != [] && (x[0] == '-' || IsDigit(x[0])) && NumberEnd(x, 0) == |x| && NumberTok(x) == Some(IntLit(i))
  {
    var x := ShowInt(i);
    var d := ShowNat(if i < 0 then -i else i);
    assert d[0] in d;
    var sign := if x[0] == '-' then 1 else 0;
    assert forall j :: sign <= j < |x| ==> x[j] in d;
    SpanAll(x, sign, IsDigit);
    assert IntEnd(x, 0) == |x|;
    assert forall j :: 0 <= j < |x| ==> x[j] == '-' || x[j] in d;
    ParseShow(i);
  }

  /** The lexer at `i` reads token `t` and stops after its text. */
  ghost predicate Reads(s: string, i: nat, t: Tok)
  {
    i < |s| && LexToken(s, i) == Some(Lexed(t, i + |TokText(t)|))
  }

  lemma StringReads(s: string, i: nat, t: Tok)
    requires t.StringLit? && Quotable(t.s) && Word(s, i, TokText(t))
    ensures Reads(s, i, t)
  {
    var x := TokText(t);
    WordSlice(s, i, x);
    assert x[1..|x| - 1] == t.s;
    QuoteInWord(s, i, x, 1, x[0]);
    assert s[i + 1..i + |x| - 1] == s[i..i + |x|][1..|x| - 1];
  }

  predicate IsKeywordTok(t: Tok)
  {
    t.BoolLit? || t.KwContains? || t.KwRequire? || t.KwExists? || t.KwIn?
  }

  lemma KeywordText(t: Tok)
    requires IsKeywordTok(t)
    ensures TokText(t) != [] && Keyword(TokText(t)) == t && forall j :: 0 <= j < |TokText(t)| ==> IsLower(TokText(t)[j])
  {
  }

  lemma LowerReads(s: string, i: nat, x: string)
    requires x != [] && Word(s, i, x) && forall j :: 0 <= j < |x| ==> IsLower(x[j])
    ensures i < |s| && LexToken(s, i) == Some(Lexed(Keyword(x), i + |x|))
  {
    WordSlice(s, i, x);
    assert s[i] == x[0];
    SpanAll(x, 0, IsIdentCont);
    PathInWord(s, i, x, 0);
  }

  lemma KeywordReads(s: string, i: nat, t: Tok)
    requires IsKeywordTok(t) && Word(s, i, TokText(t))
    ensures Reads(s, i, t)
  {
    KeywordText(t);
    LowerReads(s, i, TokText(t));
  }

  lemma PunctuationReads(s: string, i: nat, t: Tok)
    requires !t.Ident? && !t.StringLit? && !t.IntLit? && !t.FloatLit? && !IsKeywordTok(t)
    requires Word(s, i, TokText(t))
    ensures Reads(s, i, t)
  {
    var x := TokText(t);
    assert s[i] == x[0];
    if |x| == 2 { assert s[i + 1] == x[1]; }
  }

  lemma IdentReads(s: string, i: nat, t: Tok)
    requires t.Ident? && IsKey(t.name) && Word(s, i, TokText(t))
    ensures Reads(s, i, t)
  {
    WordSlice(s, i, t.name);
    assert s[i] == t.name[0];
    PathInWord(s, i, t.name, 0);
  }

  lemma NumberWordReads(s: string, i: nat, x: string, t: Tok)
    requires Word(s, i, x) && x != [] && (x[0] == '-' || IsDigit(x[0])) && NumberEnd(x, 0) == |x| &&
      NumberTok(x) == Some(t)
    ensures i < |s| && LexToken(s, i) == Some(Lexed(t, i + |x|))
  {
    WordSlice(s, i, x);
    assert s[i] == x[0];
    NumberInWord(s, i, x);
  }

  lemma IntReads(s: string, i: nat, t: Tok)
    requires t.IntLit? && IsI64(t.i) && Word(s, i, TokText(t))
    ensures Reads(s, i, t)
  {
    IntIsNumber(t.i);
    NumberWordReads(s, i, ShowInt(t.i), t);
  }

  lemma FloatReads(s: string, i: nat, t: Tok)
    requires t.FloatLit? && IsFloatLexeme(t.lexeme) && Word(s, i, TokText(t))
    ensures Reads(s, i, t)
  {
    NumberWordReads(s, i, t.lexeme, t);
  }

  /** A word that is a token's text is read as that token. */
  lemma TokenReads(s: string, i: nat, t: Tok)
    requires Lexable(t) && Word(s, i, TokText(t))
    ensures Reads(s, i, t)
  {
    if t.Ident? {
      IdentReads(s, i, t);
    } else if t.StringLit? {
      StringReads(s, i, t);
    } else if t.IntLit? {
      IntReads(s, i, t);
    } else if t.FloatLit? {
      FloatReads(s, i, t);
    } else if IsKeywordTok(t) {
      KeywordReads(s, i, t);
    } else {
      PunctuationReads(s, i, t);
    }
  }

  // ----- a rendered token list lexes to that list -----

  predicate AllLexable(ts: seq<Tok>) { forall k :: 0 <= k < |ts| ==> Lexable(ts[k]) }

  /** Spaced text starts with its first word; one space later the rest begins. */
  lemma SpacedStarts(s: string, i: nat, ws: seq<string>)
    requires i <= |s| && ws != [] && s[i..] == Spaced(ws)
    ensures Word(s, i, ws[0])
    ensures var end := i + |ws[0]|;
      if |ws| == 1 then end == |s| else end < |s| && s[end] == ' ' && s[end + 1..] == Spaced(ws[1..])
  {
    var x := ws[0];
    if |ws| == 1 {
      assert x + "" == x;
      SuffixStarts(s, i, x, "");
    } else {
      var rest := " " + Spaced(ws[1..]);
      assert x + " " + Spaced(ws[1..]) == x + rest;
      SuffixStarts(s, i, x, rest);
    }
  }

  lemma SuffixStarts(s: string, i: nat, x: string, rest: string)
    requires i <= |s| && s[i..] == x + rest && (rest == "" || rest[0] == ' ')
    ensures Word(s, i, x) && s[i + |x|..] == rest
    ensures rest != "" ==> s[i + |x|] == ' ' && s[i + |x| + 1..] == rest[1..]
  {
    assert forall k :: i <= k < |s| ==> s[k] == s[i..][k - i];
  }

  ghost predicate LexesTo(s: string, i: nat, ts: seq<Tok>) { i <= |s| && LexFrom(s, i) == Some(ts) }

  ghost predicate ReadsTo(s: string, i: nat, t: Tok, end: nat)
  {
    i < end <= |s| && LexToken(s, i) == Some(Lexed(t, end)) && !IsAsciiWhitespace(s[i])
  }

  lemma ReadsStep(s: string, i: nat, t: Tok, end: nat, ts: seq<Tok>)
    requires ReadsTo(s, i, t, end) && LexesTo(s, end, ts)
    ensures LexesTo(s, i, [t] + ts)
  {
    assert SpanEnd(s, i, IsAsciiWhitespace) == i;
  }

  lemma SpaceIsSkipped(s: string, i: nat, ts: seq<Tok>)
    requires i < |s| && s[i] == ' ' && LexesTo(s, i + 1, ts)
    ensures LexesTo(s, i, ts)
  {
    assert SpanEnd(s, i, IsAsciiWhitespace) == SpanEnd(s, i + 1, IsAsciiWhitespace);
  }

  lemma NothingLexes(s: string)
    ensures LexesTo(s, |s|, [])
  {
  }

  lemma TokenReadsTo(s: string, i: nat, t: Tok)
    requires Lexable(t) && Word(s, i, TokText(t))
    ensures ReadsTo(s, i, t, i + |TokText(t)|)
  {
    TokenReads(s, i, t);
    TokenSolid(t);
    assert s[i + 0] == TokText(t)[0];
  }

  /** From `i` on the text is these words, with single spaces between. */
  ghost predicate Worded(s: string, i: nat, ws: seq<string>)
    decreases |ws|
  {
    if ws == [] then i == |s|
    else
      var end := i + |ws[0]|;
      && Word(s, i, ws[0])
      && (if |ws| == 1 then end == |s| else end < |s| && s[end] == ' ' && Worded(s, end + 1, ws[1..]))
  }

  lemma {:induction false} SpacedIsWorded(s: string, i: nat, ws: seq<string>)
    requires i <= |s| && s[i..] == Spaced(ws)
    ensures Worded(s, i, ws)
    decreases |ws|
  {
    if ws != [] {
      SpacedStarts(s, i, ws);
      if |ws| > 1 { SpacedIsWorded(s, i + |ws[0]| + 1, ws[1..]); }
    }
  }

  /** Wherever `w` stands as a word of `s`, it is read as `t`. */
  ghost predicate Understood(s: string, w: string, t: Tok)
  {
    forall i: nat :: Word(s, i, w) ==> ReadsTo(s, i, t, i + |w|)
  }

  ghost predicate AllUnderstood(s: string, ws: seq<string>, ts: seq<Tok>)
  {
    |ws| == |ts| && forall k :: 0 <= k < |ts| ==> Understood(s, ws[k], ts[k])
  }

  lemma UnderstoodTail(s: string, ws: seq<string>, ts: seq<Tok>)
    requires AllUnderstood(s, ws, ts) && ts != []
    ensures Understood(s, ws[0], ts[0]) && AllUnderstood(s, ws[1..], ts[1..])
  {
  }

  lemma {:induction false} WordedLexes(s: string, i: nat, ws: seq<string>, ts: seq<Tok>)
    requires Worded(s, i, ws) && AllUnderstood(s, ws, ts)
    ensures LexesTo(s, i, ts)
    decreases |ts|
  {
    if ts == [] {
      NothingLexes(s);
    } else {
      var t, rest, end := ts[0], ts[1..], i + |ws[0]|;
      UnderstoodTail(s, ws, ts);
      assert ReadsTo(s, i, t, end);
      if |ts| == 1 {
        NothingLexes(s);
        assert rest == [];
      } else {
        WordedLexes(s, end + 1, ws[1..], rest);
        SpaceIsSkipped(s, end, rest);
      }
      ReadsStep(s, i, t, end, rest);
      assert ts == [t] + rest;
    }
  }

  lemma RenderedLexes(s: string, i: nat, ts: seq<Tok>)
    requires i <= |s| && AllLexable(ts) && s[i..] == Render(ts)
    ensures LexesTo(s, i, ts)
  {
    var ws := Words(ts);
    forall k | 0 <= k < |ts| ensures Understood(s, ws[k], ts[k]) {
      forall j: nat | Word(s, j, ws[k]) ensures ReadsTo(s, j, ts[k], j + |ws[k]|) { TokenReadsTo(s, j, ts[k]); }
    }
    SpacedIsWorded(s, i, ws);
    WordedLexes(s, i, ws, ts);
  }

  lemma RenderLexes(ts: seq<Tok>)
    requires AllLexable(ts)
    ensures LexFrom(Render(ts), 0) == Some(ts)
  {
    assert Render(ts)[0..] == Render(ts);
    RenderedLexes(Render(ts), 0, ts);
  }

  // ----- trimming leaves rendered text alone -----

  lemma {:induction false} PathLastChar(s: string, i: nat)
    requires i <= |s| && PathEnd(s, i).Some? && i < PathEnd(s, i).value
    ensures var c := s[PathEnd(s, i).value - 1]; IsIdentCont(c) || c == ']'
    decreases |s| - i
  {
    var n := SpanEnd(s, i, IsIdentCont);
    if n < |s| && s[n] == '[' {
      var k := CloseFrom(s, n + 1).value;
      CloseChar(s, n + 1);
      if k + 1 < PathEnd(s, k + 1).value { PathLastChar(s, k + 1); }
    } else {
      SpanChar(s, i, IsIdentCont, n - 1);
    }
  }

  lemma {:induction false} CloseChar(s: string, i: nat)
    requires i <= |s| && CloseFrom(s, i).Some?
    ensures s[CloseFrom(s, i).value] == ']'
    decreases |s| - i
  {
    if s[i] != ']' { CloseChar(s, i + 1); }
  }

  lemma {:induction false} SpanChar(s: string, i: nat, p: char -> bool, k: nat)
    requires i <= |s| && i <= k < SpanEnd(s, i, p)
    ensures p(s[k])
    decreases |s| - i
  {
    if k > i { SpanChar(s, i + 1, p, k); }
  }

  /** A token's text begins and ends with a character `trim` keeps. */
  predicate Solid(x: string) { x != [] && !IsWhitespace(x[0]) && !IsWhitespace(x[|x| - 1]) }

  lemma NumberSolid(x: string)
    requires x != [] && (x[0] == '-' || IsDigit(x[0])) && NumberEnd(x, 0) == |x|
    ensures Solid(x)
  {
    var sign := if x[0] == '-' then 1 else 0;
    var n := IntEnd(x, 0);
    if n == |x| {
      if sign < n { SpanChar(x, sign, IsDigit, n - 1); }
    } else if n + 1 < |x| {
      SpanChar(x, n + 1, IsDigit, |x| - 1);
    }
  }

  lemma TokenSolid(t: Tok)
    requires Lexable(t)
    ensures Solid(TokText(t))
  {
    if t.Ident? {
      PathLastChar(t.name, 0);
    } else if t.IntLit? {
      IntIsNumber(t.i);
      NumberSolid(TokText(t));
    } else if t.FloatLit? {
      NumberSolid(t.lexeme);
    } else if IsKeywordTok(t) {
      KeywordText(t);
    }
  }

  lemma {:induction false} SpacedSolid(ws: seq<string>)
    requires ws != [] && forall k :: 0 <= k < |ws| ==> Solid(ws[k])
    ensures Solid(Spaced(ws))
  {
    if |ws| > 1 { SpacedSolid(ws[1..]); }
  }

  lemma RenderSolid(ts: seq<Tok>)
    requires ts != [] && AllLexable(ts)
    ensures Solid(Render(ts))
  {
    forall k | 0 <= k < |ts| ensures Solid(Words(ts)[k]) { TokenSolid(ts[k]); }
    SpacedSolid(Words(ts));
  }

  lemma SolidTrim(s: string)
    requires Solid(s)
    ensures Trim(s) == s
  {
  }

  // ----- the round trip -----

  lemma LexableConcat(a: seq<Tok>, b: seq<Tok>)
    requires AllLexable(a) && AllLexable(b)
    ensures AllLexable(a + b)
  {
  }

  lemma {:induction false} ToksLexable(e: Expression)
    requires Canonical(e)
    ensures UnaryToks(e) != [] && AllLexable(UnaryToks(e))
    ensures AndToks(e) != [] && AllLexable(AndToks(e))
    ensures OrToks(e) != [] && AllLexable(OrToks(e))
    decreases e, 1
  {
    match e
    case Cond(c) => ConditionToksLexable(c);
    case Not(inner) =>
      ToksLexable(inner);
      LexableConcat([TNot], UnaryToks(inner));
    case Always =>
    case _ =>
      OpenToksLexable(e);
      LexableConcat([LParen], OpenToks(e));
      LexableConcat([LParen] + OpenToks(e), [RParen]);
  }

  lemma NotIsKey()
    ensures IsKey("not")
  {
    SpanAll("not", 0, IsIdentCont);
  }

  lemma ConditionToksLexable(c: Condition)
    requires CanonicalCondition(c)
    ensures ConditionToks(c) != [] && AllLexable(ConditionToks(c))
  {
    if c.InSet? { NotIsKey(); }
  }

  lemma {:induction false} OpenToksLexable(e: Expression)
    requires Canonical(e) && (e.And? || e.Or?)
    ensures OpenToks(e) != [] && AllLexable(OpenToks(e))
    decreases e, 0
  {
    var first, more := e.parts[0], e.parts[1..];
    ToksLexable(first);
    if e.And? {
      AndMoreLexable(more);
      LexableConcat(UnaryToks(first), AndMoreToks(more));
    } else {
      OrMoreLexable(more);
      LexableConcat(AndToks(first), OrMoreToks(more));
    }
  }

  lemma {:induction false} AndMoreLexable(parts: seq<Expression>)
    requires forall k | 0 <= k < |parts| :: Canonical(parts[k])
    ensures AllLexable(AndMoreToks(parts))
    decreases parts
  {
    if parts != [] {
      ToksLexable(parts[0]);
      AndMoreLexable(parts[1..]);
      LexableConcat([TAnd], UnaryToks(parts[0]));
      LexableConcat([TAnd] + UnaryToks(parts[0]), AndMoreToks(parts[1..]));
    }
  }

  lemma {:induction false} OrMoreLexable(parts: seq<Expression>)
    requires forall k | 0 <= k < |parts| :: Canonical(parts[k])
    ensures AllLexable(OrMoreToks(parts))
    decreases parts
  {
    if parts != [] {
      ToksLexable(parts[0]);
      OrMoreLexable(parts[1..]);
      LexableConcat([TOr], AndToks(parts[0]));
      LexableConcat([TOr] + AndToks(parts[0]), OrMoreToks(parts[1..]));
    }
  }

  /** Parsing the printed form of a canonical expression gives the expression back. */
  lemma ParsePrint(e: Expression)
    requires Canonical(e)
    ensures ParsePredicate(Print(e)) == Some(e)
  {
    var ts := OrToks(e);
    ToksLexable(e);
    RenderSolid(ts);
    SolidTrim(Print(e));
    RenderLexes(ts);
    CanonicalIsShaped(e);
    TokensReparse(e);
  }

  // ----- everything the lexer and the parser produce is canonical -----

  /** `x` stands at position `i`, whatever follows it. */
  ghost predicate Stands(s: string, i: nat, x: string)
  {
    i + |x| <= |s| && forall k :: 0 <= k < |x| ==> s[i + k] == x[k]
  }

  lemma {:induction false} SpanAlone(s: string, i: nat, x: string, k: nat, p: char -> bool)
    requires Stands(s, i, x) && k <= |x| && SpanEnd(s, i + k, p) <= i + |x|
    ensures SpanEnd(x, k, p) == SpanEnd(s, i + k, p) - i
    decreases |x| - k
  {
    if k < |x| && p(x[k]) { SpanAlone(s, i, x, k + 1, p); }
  }

  lemma {:induction false} CloseAlone(s: string, i: nat, x: string, k: nat)
    requires Stands(s, i, x) && k <= |x| && CloseFrom(s, i + k).Some? && CloseFrom(s, i + k).value < i + |x|
    ensures CloseFrom(x, k) == Some(CloseFrom(s, i + k).value - i)
    decreases |x| - k
  {
    if x[k] != ']' { CloseAlone(s, i, x, k + 1); }
  }

  lemma {:induction false} PathAlone(s: string, i: nat, x: string, k: nat)
    requires Stands(s, i, x) && k <= |x| && PathTo(s, i + k, i + |x|)
    ensures PathTo(x, k, |x|)
    decreases |x| - k
  {
    SpanAlone(s, i, x, k, IsIdentCont);
    var n := SpanEnd(x, k, IsIdentCont);
    if i + n < |s| && s[i + n] == '[' {
      assert x[n] == '[';
      CloseAlone(s, i, x, n + 1);
      var c := CloseFrom(x, n + 1).value;
      PathSkips(s, i + k, i + n, i + c, i + |x|);
      PathAlone(s, i, x, c + 1);
      PathSkips(x, k, n, c, |x|);
    }
  }

  lemma NumberAlone(s: string, i: nat, x: string)
    requires x != [] && Stands(s, i, x) && NumberEnd(s, i) == i + |x|
    ensures NumberEnd(x, 0) == |x|
  {
    assert s[i + 0] == x[0];
    SpanAlone(s, i, x, if x[0] == '-' then 1 else 0, IsDigit);
    var n := IntEnd(s, i);
    assert IntEnd(x, 0) == n - i;
    if n < |s| && s[n] == '.' { SpanAlone(s, i, x, n + 1 - i, IsDigit); }
  }

  lemma {:induction false} FindFirst(s: string, i: nat, c: char)
    requires i <= |s| && FindFrom(s, i, c).Some?
    ensures c !in s[i..FindFrom(s, i, c).value]
    decreases |s| - i
  {
    if s[i] != c {
      FindFirst(s, i + 1, c);
      var n := FindFrom(s, i, c).value;
      assert s[i..n] == [s[i]] + s[i + 1..n];
    }
  }

  lemma PathTokLexable(s: string, i: nat)
    requires i < |s| && IsIdentStart(s[i]) && PathAt(s, i).Some?
    ensures Lexable(PathAt(s, i).value.tok)
  {
    var n := PathEnd(s, i).value;
    var x := s[i..n];
    assert SpanEnd(s, i, IsIdentCont) >= i + 1;
    assert PathEnd(s, i) == Some(n) && n > i by { PathGrows(s, i); }
    assert Stands(s, i, x);
    PathAlone(s, i, x, 0);
  }

  lemma PathGrows(s: string, i: nat)
    requires i < |s| && IsIdentCont(s[i]) && PathEnd(s, i).Some?
    ensures PathEnd(s, i).value > i
  {
    assert SpanEnd(s, i, IsIdentCont) == SpanEnd(s, i + 1, IsIdentCont);
  }

  lemma NumberTokLexable(s: string, i: nat)
    requires i < |s| && (s[i] == '-' || IsDigit(s[i])) && NumberAt(s, i).Some?
    ensures Lexable(NumberAt(s, i).value.tok)
  {
    var n := NumberEnd(s, i);
    var x := s[i..n];
    assert Stands(s, i, x);
    if '.' in x { NumberAlone(s, i, x); }
  }

  lemma TokenLexable(s: string, i: nat)
    requires i < |s| && LexToken(s, i).Some?
    ensures Lexable(LexToken(s, i).value.tok)
  {
    if s[i] == '"' || s[i] == '\'' {
      FindFirst(s, i + 1, s[i]);
    } else if s[i] == '-' || IsDigit(s[i]) {
      NumberTokLexable(s, i);
    } else if IsIdentStart(s[i]) {
      PathTokLexable(s, i);
    }
  }

  lemma {:induction false} LexedIsLexable(s: string, i: nat)
    requires i <= |s| && LexFrom(s, i).Some?
    ensures AllLexable(LexFrom(s, i).value)
    decreases |s| - i
  {
    var j := SpanEnd(s, i, IsAsciiWhitespace);
    if j < |s| {
      TokenLexable(s, j);
      LexedIsLexable(s, LexToken(s, j).value.end);
    }
  }

  lemma {:induction false} OrCanonical(ts: seq<Tok>, i: nat)
    requires i <= |ts| && AllLexable(ts) && OrFrom(ts, i).Some?
    ensures Canonical(OrFrom(ts, i).value.e)
    decreases |ts| - i, 4
  {
    AndCanonical(ts, i);
    var p := AndFrom(ts, i).value;
    OrRestCanonical(ts, p.next, [p.e]);
  }

  lemma {:induction false} OrRestCanonical(ts: seq<Tok>, i: nat, parts: seq<Expression>)
    requires i <= |ts| && AllLexable(ts) && parts != [] && OrRest(ts, i, parts).Some?
    requires forall k | 0 <= k < |parts| :: Canonical(parts[k])
    ensures Canonical(OrRest(ts, i, parts).value.e)
    decreases |ts| - i, 0
  {
    if At(ts, i, TOr) {
      AndCanonical(ts, i + 1);
      var p := AndFrom(ts, i + 1).value;
      OrRestCanonical(ts, p.next, parts + [p.e]);
    }
  }

  lemma {:induction false} AndCanonical(ts: seq<Tok>, i: nat)
    requires i <= |ts| && AllLexable(ts) && AndFrom(ts, i).Some?
    ensures Canonical(AndFrom(ts, i).value.e)
    decreases |ts| - i, 3
  {
    UnaryCanonical(ts, i);
    var p := UnaryFrom(ts, i).value;
    AndRestCanonical(ts, p.next, [p.e]);
  }

  lemma {:induction false} AndRestCanonical(ts: seq<Tok>, i: nat, parts: seq<Expression>)
    requires i <= |ts| && AllLexable(ts) && parts != [] && AndRest(ts, i, parts).Some?
    requires forall k | 0 <= k < |parts| :: Canonical(parts[k])
    ensures Canonical(AndRest(ts, i, parts).value.e)
    decreases |ts| - i, 0
  {
    if At(ts, i, TAnd) {
      UnaryCanonical(ts, i + 1);
      var p := UnaryFrom(ts, i + 1).value;
      AndRestCanonical(ts, p.next, parts + [p.e]);
    }
  }

  lemma {:induction false} UnaryCanonical(ts: seq<Tok>, i: nat)
    requires i <= |ts| && AllLexable(ts) && UnaryFrom(ts, i).Some?
    ensures Canonical(UnaryFrom(ts, i).value.e)
    decreases |ts| - i, 2
  {
    if At(ts, i, TNot) { UnaryCanonical(ts, i + 1); } else { AtomCanonical(ts, i); }
  }

  lemma {:induction false} AtomCanonical(ts: seq<Tok>, i: nat)
    requires i <= |ts| && AllLexable(ts) && AtomFrom(ts, i).Some?
    ensures Canonical(AtomFrom(ts, i).value.e)
    decreases |ts| - i, 1
  {
    if At(ts, i, LParen) {
      OrCanonical(ts, i + 1);
    } else if At(ts, i, KwExists) {
      assert Lexable(ts[i + 2]);
    } else {
      IdentCanonical(ts, i);
    }
  }

  lemma IdentCanonical(ts: seq<Tok>, i: nat)
    requires IdentAt(ts, i) && AllLexable(ts) && IdentPredicate(ts, i).Some?
    ensures Canonical(IdentPredicate(ts, i).value.e)
  {
    assert Lexable(ts[i]);
    assert i + 2 < |ts| ==> Lexable(ts[i + 2]);
    assert i + 3 < |ts| ==> Lexable(ts[i + 3]);
  }

  /** Everything `parse_predicate` accepts is canonical. */
  lemma ParsedIsCanonical(src: string)
    requires ParsePredicate(src).Some?
    ensures Canonical(ParsePredicate(src).value)
  {
    LexedIsLexable(Trim(src), 0);
    OrCanonical(LexFrom(Trim(src), 0).value, 0);
  }

  /** Hence printing what was parsed, and parsing again, changes nothing. */
  lemma ParsePrintParse(src: string)
    requires ParsePredicate(src).Some?
    ensures ParsePredicate(Print(ParsePredicate(src).value)) == ParsePredicate(src)
  {
    ParsedIsCanonical(src);
    ParsePrint(ParsePredicate(src).value);
  }
}
