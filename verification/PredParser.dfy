/** The predicate grammar (`PredParser` in `parser.rs`): a specification by token
    position, the recursive-descent parser proved equal to it, and `parse_predicate`. */
module PredParser {
  import opened Text
  import opened Ir
  import opened Lexer

  /** A parsed expression and the position of the token after it. */
  datatype Parsed = Parsed(e: Expression, next: nat)

  predicate At(ts: seq<Tok>, i: nat, t: Tok) { i < |ts| && ts[i] == t }

  predicate IdentAt(ts: seq<Tok>, i: nat) { i < |ts| && ts[i].Ident? }

  /** One part stands for itself. */
  function AnyOf(parts: seq<Expression>): Expression
    requires parts != []
  {
    if |parts| == 1 then parts[0] else Or(parts)
  }

  function AllOf(parts: seq<Expression>): Expression
    requires parts != []
  {
    if |parts| == 1 then parts[0] else And(parts)
  }

  function OrFrom(ts: seq<Tok>, i: nat): (r: Option<Parsed>)
    requires i <= |ts|
    ensures r.Some? ==> i < r.value.next <= |ts|
    decreases |ts| - i, 4
  {
    match AndFrom(ts, i)
    case None => None
    case Some(p) => OrRest(ts, p.next, [p.e])
  }

  function OrRest(ts: seq<Tok>, i: nat, parts: seq<Expression>): (r: Option<Parsed>)
    requires i <= |ts| && parts != []
    ensures r.Some? ==> i <= r.value.next <= |ts|
    decreases |ts| - i, 0
  {
    if At(ts, i, TOr) then
      match AndFrom(ts, i + 1)
      case None => None
      case Some(p) => OrRest(ts, p.next, parts + [p.e])
    else Some(Parsed(AnyOf(parts), i))
  }

  function AndFrom(ts: seq<Tok>, i: nat): (r: Option<Parsed>)
    requires i <= |ts|
    ensures r.Some? ==> i < r.value.next <= |ts|
    decreases |ts| - i, 3
  {
    match UnaryFrom(ts, i)
    case None => None
    case Some(p) => AndRest(ts, p.next, [p.e])
  }

  function AndRest(ts: seq<Tok>, i: nat, parts: seq<Expression>): (r: Option<Parsed>)
    requires i <= |ts| && parts != []
    ensures r.Some? ==> i <= r.value.next <= |ts|
    decreases |ts| - i, 0
  {
    if At(ts, i, TAnd) then
      match UnaryFrom(ts, i + 1)
      case None => None
      case Some(p) => AndRest(ts, p.next, parts + [p.e])
    else Some(Parsed(AllOf(parts), i))
  }

  function UnaryFrom(ts: seq<Tok>, i: nat): (r: Option<Parsed>)
    requires i <= |ts|
    ensures r.Some? ==> i < r.value.next <= |ts|
    decreases |ts| - i, 2
  {
    if At(ts, i, TNot) then
      match UnaryFrom(ts, i + 1)
      case None => None
      case Some(p) => Some(Parsed(Not(p.e), p.next))
    else AtomFrom(ts, i)
  }

  function AtomFrom(ts: seq<Tok>, i: nat): (r: Option<Parsed>)
    requires i <= |ts|
    ensures r.Some? ==> i < r.value.next <= |ts|
    decreases |ts| - i, 1
  {
    if At(ts, i, LParen) then
      match OrFrom(ts, i + 1)
      case None => None
      case Some(p) => if At(ts, p.next, RParen) then Some(Parsed(p.e, p.next + 1)) else None
    else if At(ts, i, KwExists) then
      if At(ts, i + 1, LParen) && IdentAt(ts, i + 2) && At(ts, i + 3, RParen)
      then Some(Parsed(Cond(Exists(ts[i + 2].name)), i + 4)) else None
    else if IdentAt(ts, i) then IdentPredicate(ts, i)
    else None
  }

  function CompareOpOf(t: Tok): Option<CompareOp>
  {
    match t
    case TEq => Some(Eq)
    case TNotEq => Some(NotEq)
    case TGt => Some(Gt)
    case TGtEq => Some(GtEq)
    case TLt => Some(Lt)
    case TLtEq => Some(LtEq)
    case KwContains => Some(Contains)
    case _ => None
  }

  function LiteralOf(t: Tok): Option<Literal>
  {
    match t
    case StringLit(s) => Some(LString(s))
    case IntLit(i) => Some(LInt(i))
    case FloatLit(l) => Some(LFloat(l))
    case BoolLit(b) => Some(LBool(b))
    case _ => None
  }

  function SetPredicate(ts: seq<Tok>, i: nat, key: string, negate: bool): (r: Option<Parsed>)
    ensures r.Some? ==> i < r.value.next <= |ts|
  {
    if IdentAt(ts, i) then Some(Parsed(Cond(InSet(key, ts[i].name, negate)), i + 1)) else None
  }

  /** A predicate that begins with an identifier; `not` is only special before `in`. */
  function IdentPredicate(ts: seq<Tok>, i: nat): (r: Option<Parsed>)
    requires IdentAt(ts, i)
    ensures r.Some? ==> i < r.value.next <= |ts|
  {
    var key := ts[i].name;
    if At(ts, i + 1, KwIn) then SetPredicate(ts, i + 2, key, false)
    else if At(ts, i + 1, Ident("not")) && At(ts, i + 2, KwIn) then SetPredicate(ts, i + 3, key, true)
    else if i + 1 < |ts| && CompareOpOf(ts[i + 1]).Some? then
      if i + 2 < |ts| && LiteralOf(ts[i + 2]).Some? then
        Some(Parsed(Cond(Comparison(key, CompareOpOf(ts[i + 1]).value, LiteralOf(ts[i + 2]).value)), i + 3))
      else None
    else Some(Parsed(Cond(IsTrue(key)), i + 1))
  }

  /** The whole token list must be one expression. */
  function ParseTokens(ts: seq<Tok>): Option<Expression>
  {
    match OrFrom(ts, 0)
    case None => None
    case Some(p) => if p.next == |ts| then Some(p.e) else None
  }

  /** `parse_predicate`; `None` is any parse error. */
  function ParsePredicate(src: string): Option<Expression>
  {
    match LexFrom(Trim(src), 0)
    case None => None
    case Some(ts) => ParseTokens(ts)
  }

  // ----- the parser -----

  /** `got` and the parser's position agree with the specification's answer. */
  predicate Agrees(got: Option<Expression>, pos: nat, want: Option<Parsed>)
  {
    if want.None? then got.None? else got == Some(want.value.e) && pos == want.value.next
  }

  class Parser {
    const toks: seq<Tok>
    var pos: nat

    ghost predicate Valid() reads this { pos <= |toks| }

    constructor (toks: seq<Tok>)
      ensures Valid() && this.toks == toks && pos == 0
    {
      this.toks := toks;
      pos := 0;
    }

    method Bump() returns (t: Option<Tok>)
      requires Valid()
      modifies this
      ensures Valid()
      ensures if old(pos) < |toks| then t == Some(toks[old(pos)]) && pos == old(pos) + 1
              else t == None && pos == old(pos)
    {
      if pos == |toks| { return None; }
      t := Some(toks[pos]);
      pos := pos + 1;
    }

    method ParseOr() returns (e: Option<Expression>)
      requires Valid()
      modifies this
      ensures Valid() && Agrees(e, pos, OrFrom(toks, old(pos)))
      decreases |toks| - pos, 4
    {
      e := ParseAnd();
      if e.None? { return; }
      var parts := [e.value];
      while At(toks, pos, TOr)
        invariant Valid() && parts != [] && pos > old(pos)
        invariant OrFrom(toks, old(pos)) == OrRest(toks, pos, parts)
        decreases |toks| - pos
      {
        pos := pos + 1;
        e := ParseAnd();
        if e.None? { return; }
        parts := parts + [e.value];
      }
      return Some(AnyOf(parts));
    }

    method ParseAnd() returns (e: Option<Expression>)
      requires Valid()
      modifies this
      ensures Valid() && Agrees(e, pos, AndFrom(toks, old(pos)))
      decreases |toks| - pos, 3
    {
      e := ParseUnary();
      if e.None? { return; }
      var parts := [e.value];
      while At(toks, pos, TAnd)
        invariant Valid() && parts != [] && pos > old(pos)
        invariant AndFrom(toks, old(pos)) == AndRest(toks, pos, parts)
        decreases |toks| - pos
      {
        pos := pos + 1;
        e := ParseUnary();
        if e.None? { return; }
        parts := parts + [e.value];
      }
      return Some(AllOf(parts));
    }

    method ParseUnary() returns (e: Option<Expression>)
      requires Valid()
      modifies this
      ensures Valid() && Agrees(e, pos, UnaryFrom(toks, old(pos)))
      decreases |toks| - pos, 2
    {
      if At(toks, pos, TNot) {
        pos := pos + 1;
        e := ParseUnary();
        if e.Some? { e := Some(Not(e.value)); }
      } else {
        e := ParseAtom();
      }
    }

    method ParseAtom() returns (e: Option<Expression>)
      requires Valid()
      modifies this
      ensures Valid() && Agrees(e, pos, AtomFrom(toks, old(pos)))
      decreases |toks| - pos, 1
    {
      if At(toks, pos, LParen) {
        pos := pos + 1;
        e := ParseOr();
        if e.None? { return; }
        var close := Bump();
        if close != Some(RParen) { return None; }
      } else if At(toks, pos, KwExists) {
        e := ParseExists();
      } else if IdentAt(toks, pos) {
        e := ParseIdentifierPredicate();
      } else {
        e := None;
      }
    }

    method ParseExists() returns (e: Option<Expression>)
      requires Valid() && At(toks, pos, KwExists)
      modifies this
      ensures Valid() && Agrees(e, pos, AtomFrom(toks, old(pos)))
    {
      pos := pos + 1;
      var open := Bump();
      if open != Some(LParen) { return None; }
      var key := Bump();
      if key.None? || !key.value.Ident? { return None; }
      var close := Bump();
      if close != Some(RParen) { return None; }
      return Some(Cond(Exists(key.value.name)));
    }

    method ParseIdentifierPredicate() returns (e: Option<Expression>)
      requires Valid() && IdentAt(toks, pos)
      modifies this
      ensures Valid() && Agrees(e, pos, IdentPredicate(toks, old(pos)))
    {
      var key := toks[pos].name;
      pos := pos + 1;
      if At(toks, pos, KwIn) {
        pos := pos + 1;
        e := FinishInSet(key, false);
        return;
      }
      if At(toks, pos, Ident("not")) {
        var saved := pos;
        pos := pos + 1;
        if At(toks, pos, KwIn) {
          pos := pos + 1;
          e := FinishInSet(key, true);
          return;
        }
        pos := saved;
      }
      var op := if pos < |toks| then CompareOpOf(toks[pos]) else None;
      if op.None? { return Some(Cond(IsTrue(key))); }
      pos := pos + 1;
      var rhs := Bump();
      if rhs.None? || LiteralOf(rhs.value).None? { return None; }
      return Some(Cond(Comparison(key, op.value, LiteralOf(rhs.value).value)));
    }

    method FinishInSet(key: string, negate: bool) returns (e: Option<Expression>)
      requires Valid()
      modifies this
      ensures Valid() && Agrees(e, pos, SetPredicate(toks, old(pos), key, negate))
    {
      var t := Bump();
      if t.None? || !t.value.Ident? { return None; }
      return Some(Cond(InSet(key, t.value.name, negate)));
    }
  }

  /** Lex, parse, and refuse trailing tokens. */
  method Parse(src: string) returns (e: Option<Expression>)
    ensures e == ParsePredicate(src)
  {
    var lexer := new Scanner(Trim(src));
    var toks := lexer.TokenizeAll();
    if toks.None? { return None; }
    var p := new Parser(toks.value);
    e := p.ParseOr();
    if p.pos < |p.toks| { return None; }
  }
}
