/** The predicate lexer (`parser.rs`): a specification by position in the text, and
    the position-advancing scanner proved equal to it. */
module Lexer {
  import opened Text

  datatype Tok =
    | Ident(name: string)
    | StringLit(s: string)
    | IntLit(i: int)
    | FloatLit(lexeme: string)
    | BoolLit(b: bool)
    | TEq | TNotEq | TGt | TGtEq | TLt | TLtEq
    | TAnd | TOr | TNot | LParen | RParen | Comma
    | KwContains | KwRequire | KwExists | KwIn

  /** One token and the position after it. */
  datatype Lexed = Lexed(tok: Tok, end: nat)

  predicate IsIdentStart(c: char) { IsAlpha(c) || c == '_' }
  predicate IsIdentCont(c: char) { IsAlpha(c) || IsDigit(c) || c == '_' || c == '.' }

  /** First position from `i` on whose character fails `p`. */
  function SpanEnd(s: string, i: nat, p: char -> bool): (n: nat)
    requires i <= |s|
    ensures i <= n <= |s|
    decreases |s| - i
  {
    if i < |s| && p(s[i]) then SpanEnd(s, i + 1, p) else i
  }

  /** First position from `i` on holding `c`. */
  function FindFrom(s: string, i: nat, c: char): (r: Option<nat>)
    requires i <= |s|
    ensures r.Some? ==> i <= r.value < |s|
    decreases |s| - i
  {
    if i == |s| then None else if s[i] == c then Some(i) else FindFrom(s, i + 1, c)
  }

  /** Where an open `[` group closes; a nested `[` or the end of the text is an error. */
  function CloseFrom(s: string, i: nat): (r: Option<nat>)
    requires i <= |s|
    ensures r.Some? ==> i <= r.value < |s|
    decreases |s| - i
  {
    if i == |s| || s[i] == '[' then None
    else if s[i] == ']' then Some(i)
    else CloseFrom(s, i + 1)
  }

  /** End of an attribute path: identifier runs interleaved with `[...]` groups. */
  function PathEnd(s: string, i: nat): (r: Option<nat>)
    requires i <= |s|
    ensures r.Some? ==> i <= r.value <= |s|
    decreases |s| - i
  {
    var n := SpanEnd(s, i, IsIdentCont);
    if n < |s| && s[n] == '[' then
      match CloseFrom(s, n + 1)
      case None => None
      case Some(k) => PathEnd(s, k + 1)
    else Some(n)
  }

  /** End of the digits after an optional sign. */
  function IntEnd(s: string, i: nat): (n: nat)
    requires i < |s|
    ensures i <= n <= |s|
  {
    SpanEnd(s, if s[i] == '-' then i + 1 else i, IsDigit)
  }

  function NumberEnd(s: string, i: nat): (n: nat)
    requires i < |s|
    ensures i <= n <= |s|
  {
    var n := IntEnd(s, i);
    if n < |s| && s[n] == '.' then SpanEnd(s, n + 1, IsDigit) else n
  }

  /** A path with an interpolation group is never a keyword. */
  function Keyword(text: string): Tok
  {
    if '[' in text then Ident(text)
    else if text == "true" then BoolLit(true)
    else if text == "false" then BoolLit(false)
    else if text == "contains" then KwContains
    else if text == "require" then KwRequire
    else if text == "exists" then KwExists
    else if text == "in" then KwIn
    else Ident(text)
  }

  /** A float numeral fails to parse only when it has no digit at all. */
  function NumberTok(text: string): Option<Tok>
  {
    if '.' in text then
      if exists c :: c in text && IsDigit(c) then Some(FloatLit(text)) else None
    else
      match ParseI64(text)
      case None => None
      case Some(i) => Some(IntLit(i))
  }

  function StringAt(s: string, i: nat): Option<Lexed>
    requires i < |s|
  {
    match FindFrom(s, i + 1, s[i])
    case None => None
    case Some(n) => Some(Lexed(StringLit(s[i + 1..n]), n + 1))
  }

  function NumberAt(s: string, i: nat): Option<Lexed>
    requires i < |s|
  {
    var n := NumberEnd(s, i);
    match NumberTok(s[i..n])
    case None => None
    case Some(t) => Some(Lexed(t, n))
  }

  function PathAt(s: string, i: nat): Option<Lexed>
    requires i < |s|
  {
    match PathEnd(s, i)
    case None => None
    case Some(n) => Some(Lexed(Keyword(s[i..n]), n))
  }

  function OneOrTwo(s: string, i: nat, one: Tok, two: Tok): Lexed
    requires i < |s|
  {
    if i + 1 < |s| && s[i + 1] == '=' then Lexed(two, i + 2) else Lexed(one, i + 1)
  }

  function PunctuationAt(s: string, i: nat): Option<Lexed>
    requires i < |s|
  {
    match s[i]
    case '(' => Some(Lexed(LParen, i + 1))
    case ')' => Some(Lexed(RParen, i + 1))
    case ',' => Some(Lexed(Comma, i + 1))
    case '&' => Some(Lexed(TAnd, i + 1))
    case '|' => Some(Lexed(TOr, i + 1))
    case '=' => if i + 1 < |s| && s[i + 1] == '=' then Some(Lexed(TEq, i + 2)) else None
    case '!' => Some(OneOrTwo(s, i, TNot, TNotEq))
    case '>' => Some(OneOrTwo(s, i, TGt, TGtEq))
    case '<' => Some(OneOrTwo(s, i, TLt, TLtEq))
    case _ => None
  }

  function LexToken(s: string, i: nat): (r: Option<Lexed>)
    requires i < |s|
    ensures r.Some? ==> i < r.value.end <= |s|
  {
    if s[i] == '"' || s[i] == '\'' then StringAt(s, i)
    else if s[i] == '-' || IsDigit(s[i]) then NumberAt(s, i)
    else if IsIdentStart(s[i]) then PathAt(s, i)
    else PunctuationAt(s, i)
  }

  /** The tokens from position `i` on; `None` is any lexing error. */
  function LexFrom(s: string, i: nat): Option<seq<Tok>>
    requires i <= |s|
    decreases |s| - i
  {
    var j := SpanEnd(s, i, IsAsciiWhitespace);
    if j == |s| then Some([])
    else match LexToken(s, j)
      case None => None
      case Some(lexed) => Append([lexed.tok], LexFrom(s, lexed.end))
  }

  function Append(out: seq<Tok>, r: Option<seq<Tok>>): (a: Option<seq<Tok>>)
    ensures out == [] ==> a == r
    ensures r == Some([]) ==> a == Some(out)
  {
    if r.None? then None
    else
      assert out == [] ==> out + r.value == r.value;
      assert r.value == [] ==> out + r.value == out;
      Some(out + r.value)
  }

  lemma AppendOne(out: seq<Tok>, t: Tok, r: Option<seq<Tok>>)
    ensures Append(out, Append([t], r)) == Append(out + [t], r)
  {
    if r.Some? { assert out + ([t] + r.value) == out + [t] + r.value; }
  }

  // ----- the scanner -----

  class Scanner {
    const src: string
    var pos: nat

    ghost predicate Valid() reads this { pos <= |src| }

    constructor (src: string)
      ensures Valid() && this.src == src && pos == 0
    {
      this.src := src;
      pos := 0;
    }

    /** Advance over characters satisfying `p`. */
    method SkipWhile(p: char -> bool)
      requires Valid()
      modifies this
      ensures Valid() && pos == SpanEnd(src, old(pos), p)
    {
      while pos < |src| && p(src[pos])
        invariant Valid() && SpanEnd(src, old(pos), p) == SpanEnd(src, pos, p)
      {
        pos := pos + 1;
      }
    }

    method LexString(quote: char) returns (t: Option<Tok>)
      requires Valid() && pos < |src| && src[pos] == quote
      modifies this
      ensures Valid()
      ensures StringAt(src, old(pos)) == if t.None? then None else Some(Lexed(t.value, pos))
    {
      pos := pos + 1;
      var start := pos;
      while pos < |src| && src[pos] != quote
        invariant Valid() && start <= pos
        invariant FindFrom(src, start, quote) == FindFrom(src, pos, quote)
      {
        pos := pos + 1;
      }
      if pos == |src| { return None; }
      t := Some(StringLit(src[start..pos]));
      pos := pos + 1;
    }

    method LexNumber() returns (t: Option<Tok>)
      requires Valid() && pos < |src|
      modifies this
      ensures Valid()
      ensures NumberAt(src, old(pos)) == if t.None? then None else Some(Lexed(t.value, pos))
    {
      var start := pos;
      if src[pos] == '-' { pos := pos + 1; }
      SkipWhile(IsDigit);
      assert pos == IntEnd(src, start);
      if pos < |src| && src[pos] == '.' {
        pos := pos + 1;
        SkipWhile(IsDigit);
      }
      assert pos == NumberEnd(src, start);
      t := NumberTok(src[start..pos]);
    }

    /** Read past the `]` that closes an open group. */
    method SkipGroup() returns (closed: bool)
      requires Valid()
      modifies this
      ensures Valid()
      ensures if closed then 0 < pos && CloseFrom(src, old(pos)) == Some(pos - 1) else CloseFrom(src, old(pos)) == None
    {
      while pos < |src|
        invariant Valid() && CloseFrom(src, old(pos)) == CloseFrom(src, pos)
      {
        var c := src[pos];
        pos := pos + 1;
        if c == ']' { return true; }
        if c == '[' { return false; }
      }
      return false;
    }

    method LexIdentOrKeyword() returns (t: Option<Tok>)
      requires Valid() && pos < |src|
      modifies this
      ensures Valid()
      ensures PathAt(src, old(pos)) == if t.None? then None else Some(Lexed(t.value, pos))
    {
      var start := pos;
      while true
        invariant Valid() && start <= pos
        invariant PathEnd(src, start) == PathEnd(src, pos)
        decreases |src| - pos
      {
        SkipWhile(IsIdentCont);
        if pos == |src| || src[pos] != '[' { break; }
        pos := pos + 1;
        var closed := SkipGroup();
        if !closed { return None; }
      }
      t := Some(Keyword(src[start..pos]));
    }

    method LexPunctuation() returns (t: Option<Tok>)
      requires Valid() && pos < |src|
      modifies this
      ensures Valid()
      ensures PunctuationAt(src, old(pos)) == if t.None? then None else Some(Lexed(t.value, pos))
    {
      var c := src[pos];
      pos := pos + 1;
      var equals := pos < |src| && src[pos] == '=';
      match c {
        case '(' => return Some(LParen);
        case ')' => return Some(RParen);
        case ',' => return Some(Comma);
        case '&' => return Some(TAnd);
        case '|' => return Some(TOr);
        case '=' => t := if equals then Some(TEq) else None;
        case '!' => t := Some(if equals then TNotEq else TNot);
        case '>' => t := Some(if equals then TGtEq else TGt);
        case '<' => t := Some(if equals then TLtEq else TLt);
        case _ => return None;
      }
      if equals { pos := pos + 1; }
    }

    /** `tokenize_all`. */
    method TokenizeAll() returns (toks: Option<seq<Tok>>)
      requires Valid() && pos == 0
      modifies this
      ensures toks == LexFrom(src, 0)
    {
      var out: seq<Tok> := [];
      while true
        invariant Valid()
        invariant LexFrom(src, 0) == Append(out, LexFrom(src, pos))
        decreases |src| - pos
      {
        SkipWhile(IsAsciiWhitespace);
        if pos == |src| { return Some(out); }
        var c, t := src[pos], None;
        if c == '"' || c == '\'' {
          t := LexString(c);
        } else if c == '-' || IsDigit(c) {
          t := LexNumber();
        } else if IsIdentStart(c) {
          t := LexIdentOrKeyword();
        } else {
          t := LexPunctuation();
        }
        if t.None? { return None; }
        AppendOne(out, t.value, LexFrom(src, pos));
        out := out + [t.value];
      }
    }
  }
}
