/** Printing predicates, and the proof that parsing undoes it: `parse_predicate` of a
    printed canonical expression gives that expression back, and everything
    `parse_predicate` accepts is canonical. */
module RoundTrip {
  import opened Text
  import opened Ir
  import opened Lexer
  import opened PredParser

  // ----- canonical expressions -----

  /** A key the lexer reads as one identifier. */
  predicate IsKey(k: string)
  {
    k != [] && IsIdentStart(k[0]) && PathEnd(k, 0) == Some(|k|) && Keyword(k) == Ident(k)
  }

  predicate IsFloatLexeme(l: string)
  {
    l != [] && (l[0] == '-' || IsDigit(l[0])) && NumberEnd(l, 0) == |l| && NumberTok(l) == Some(FloatLit(l))
  }

  predicate Quotable(s: string) { '"' !in s || '\'' !in s }

  predicate CanonicalLiteral(l: Literal)
  {
    match l
    case LBool(_) => true
    case LInt(i) => IsI64(i)
    case LFloat(lexeme) => IsFloatLexeme(lexeme)
    case LString(s) => Quotable(s)
  }

  predicate CanonicalCondition(c: Condition)
  {
    match c
    case Comparison(key, _, value) => IsKey(key) && CanonicalLiteral(value)
    case IsTrue(key) => IsKey(key)
    case Exists(key) => IsKey(key)
    case InSet(valueKey, setKey, _) => IsKey(valueKey) && IsKey(setKey)
    case IsFalse(_) => false
  }

  predicate Canonical(e: Expression)
  {
    match e
    case Cond(c) => CanonicalCondition(c)
    case And(parts) => |parts| >= 2 && forall k | 0 <= k < |parts| :: Canonical(parts[k])
    case Or(parts) => |parts| >= 2 && forall k | 0 <= k < |parts| :: Canonical(parts[k])
    case Not(inner) => Canonical(inner)
    case Always => false
  }

  /** The part of being canonical the grammar cares about. */
  predicate Shaped(e: Expression)
  {
    match e
    case Cond(c) => !c.IsFalse?
    case And(parts) => |parts| >= 2 && forall k | 0 <= k < |parts| :: Shaped(parts[k])
    case Or(parts) => |parts| >= 2 && forall k | 0 <= k < |parts| :: Shaped(parts[k])
    case Not(inner) => Shaped(inner)
    case Always => false
  }

  predicate AllShaped(parts: seq<Expression>) { forall k :: 0 <= k < |parts| ==> Shaped(parts[k]) }

  lemma {:induction false} CanonicalIsShaped(e: Expression)
    requires Canonical(e)
    ensures Shaped(e)
  {
    match e
    case And(parts) => forall k | 0 <= k < |parts| ensures Shaped(parts[k]) { CanonicalIsShaped(parts[k]); }
    case Or(parts) => forall k | 0 <= k < |parts| ensures Shaped(parts[k]) { CanonicalIsShaped(parts[k]); }
    case Not(inner) => CanonicalIsShaped(inner);
    case _ =>
  }

  // ----- printing to tokens, with as few parentheses as precedence allows -----

  function OpTok(op: CompareOp): (t: Tok)
    ensures CompareOpOf(t) == Some(op)
  {
    match op
    case Eq => TEq
    case NotEq => TNotEq
    case Gt => TGt
    case GtEq => TGtEq
    case Lt => TLt
    case LtEq => TLtEq
    case Contains => KwContains
  }

  function LiteralTok(l: Literal): (t: Tok)
    ensures LiteralOf(t) == Some(l)
  {
    match l
    case LBool(b) => BoolLit(b)
    case LInt(i) => IntLit(i)
    case LFloat(lexeme) => FloatLit(lexeme)
    case LString(s) => StringLit(s)
  }

  function ConditionToks(c: Condition): seq<Tok>
  {
    match c
    case Comparison(key, op, value) => [Ident(key), OpTok(op), LiteralTok(value)]
    case IsTrue(key) => [Ident(key)]
    case IsFalse(key) => [TNot, Ident(key)]
    case Exists(key) => [KwExists, LParen, Ident(key), RParen]
    case InSet(v, s, negate) => if negate then [Ident(v), Ident("not"), KwIn, Ident(s)] else [Ident(v), KwIn, Ident(s)]
  }

  function UnaryToks(e: Expression): seq<Tok>
    decreases e, 1
  {
    match e
    case Cond(c) => ConditionToks(c)
    case Not(inner) => [TNot] + UnaryToks(inner)
    case Always => []
    case _ => [LParen] + OpenToks(e) + [RParen]
  }

  /** A conjunction or disjunction without its parentheses. */
  function OpenToks(e: Expression): seq<Tok>
    requires e.And? || e.Or?
    decreases e, 0
  {
    if e.parts == [] then []
    else if e.And? then UnaryToks(e.parts[0]) + AndMoreToks(e.parts[1..])
    else AndToks(e.parts[0]) + OrMoreToks(e.parts[1..])
  }

  function AndToks(e: Expression): seq<Tok>
    decreases e, 2
  {
    if e.And? then OpenToks(e) else UnaryToks(e)
  }

  function OrToks(e: Expression): seq<Tok>
    decreases e, 3
  {
    if e.Or? then OpenToks(e) else AndToks(e)
  }

  function AndMoreToks(parts: seq<Expression>): seq<Tok>
    decreases parts
  {
    if parts == [] then [] else [TAnd] + UnaryToks(parts[0]) + AndMoreToks(parts[1..])
  }

  function OrMoreToks(parts: seq<Expression>): seq<Tok>
    decreases parts
  {
    if parts == [] then [] else [TOr] + AndToks(parts[0]) + OrMoreToks(parts[1..])
  }

  // ----- parsing the printed tokens -----

  ghost predicate Occurs<T>(whole: seq<T>, i: nat, part: seq<T>)
    decreases |part|
  {
    i + |part| <= |whole| && (part == [] || (whole[i] == part[0] && Occurs(whole, i + 1, part[1..])))
  }

  lemma {:induction false} OccursParts<T>(whole: seq<T>, i: nat, a: seq<T>, b: seq<T>)
    requires Occurs(whole, i, a + b)
    ensures Occurs(whole, i, a) && Occurs(whole, i + |a|, b)
    decreases |a|
  {
    if a == [] {
      assert a + b == b;
    } else {
      assert (a + b)[1..] == a[1..] + b;
      OccursParts(whole, i + 1, a[1..], b);
    }
  }

  lemma {:induction false} OccursAt<T>(whole: seq<T>, i: nat, part: seq<T>, k: nat)
    requires Occurs(whole, i, part) && k < |part|
    ensures whole[i + k] == part[k]
    decreases k
  {
    if k > 0 { OccursAt(whole, i + 1, part[1..], k - 1); }
  }

  lemma {:induction false} OccursWhole<T>(s: seq<T>, i: nat)
    requires i <= |s|
    ensures Occurs(s, i, s[i..])
    decreases |s| - i
  {
    if i < |s| {
      assert s[i..][1..] == s[i + 1..];
      OccursWhole(s, i + 1);
    }
  }

  /** A printed tail `t x more`, taken apart. */
  lemma OccursTail(ts: seq<Tok>, i: nat, t: Tok, x: seq<Tok>, more: seq<Tok>)
    requires Occurs(ts, i, [t] + x + more)
    ensures At(ts, i, t) && Occurs(ts, i + 1, x) && Occurs(ts, i + 1 + |x|, more)
    ensures more != [] ==> At(ts, i + 1 + |x|, more[0])
  {
    OccursParts(ts, i, [t] + x, more);
    OccursParts(ts, i, [t], x);
  }

  /** The tokens of a condition stand at `i`. */
  ghost predicate ConditionAt(ts: seq<Tok>, i: nat, c: Condition)
  {
    match c
    case Comparison(key, op, value) =>
      At(ts, i, Ident(key)) && At(ts, i + 1, OpTok(op)) && At(ts, i + 2, LiteralTok(value))
    case IsTrue(key) => At(ts, i, Ident(key))
    case IsFalse(key) => At(ts, i, TNot) && At(ts, i + 1, Ident(key))
    case Exists(key) =>
      At(ts, i, KwExists) && At(ts, i + 1, LParen) && At(ts, i + 2, Ident(key)) && At(ts, i + 3, RParen)
    case InSet(v, s, negate) =>
      && At(ts, i, Ident(v))
      && (if negate then At(ts, i + 1, Ident("not")) && At(ts, i + 2, KwIn) && At(ts, i + 3, Ident(s))
          else At(ts, i + 1, KwIn) && At(ts, i + 2, Ident(s)))
  }

  lemma ConditionLaidOut(c: Condition, ts: seq<Tok>, i: nat)
    requires Occurs(ts, i, ConditionToks(c))
    ensures ConditionAt(ts, i, c)
  {
    var x := ConditionToks(c);
    assert At(ts, i, x[0]) by { OccursAt(ts, i, x, 0); }
    assert |x| > 1 ==> At(ts, i + 1, x[1]) by { if |x| > 1 { OccursAt(ts, i, x, 1); } }
    assert |x| > 2 ==> At(ts, i + 2, x[2]) by { if |x| > 2 { OccursAt(ts, i, x, 2); } }
    assert |x| > 3 ==> At(ts, i + 3, x[3]) by { if |x| > 3 { OccursAt(ts, i, x, 3); } }
  }

  // Where a printed expression laid out from `i` on ends, read off the tokens.

  ghost function UnarySpan(ts: seq<Tok>, i: nat, e: Expression): Option<nat>
    decreases e, 1
  {
    match e
    case Cond(c) => if ConditionAt(ts, i, c) then Some(i + |ConditionToks(c)|) else None
    case Not(inner) => if At(ts, i, TNot) then UnarySpan(ts, i + 1, inner) else None
    case Always => None
    case _ =>
      var n := if At(ts, i, LParen) then OpenSpan(ts, i + 1, e) else None;
      if n.Some? && At(ts, n.value, RParen) then Some(n.value + 1) else None
  }

  ghost function OpenSpan(ts: seq<Tok>, i: nat, e: Expression): Option<nat>
    requires e.And? || e.Or?
    decreases e, 0
  {
    if e.parts == [] then None
    else if e.And? then
      var m := UnarySpan(ts, i, e.parts[0]);
      if m.Some? then AndMoreSpan(ts, m.value, e.parts[1..]) else None
    else
      var m := AndSpan(ts, i, e.parts[0]);
      if m.Some? then OrMoreSpan(ts, m.value, e.parts[1..]) else None
  }

  ghost function AndSpan(ts: seq<Tok>, i: nat, e: Expression): Option<nat>
    decreases e, 2
  {
    if e.And? then OpenSpan(ts, i, e) else UnarySpan(ts, i, e)
  }

  ghost function OrSpan(ts: seq<Tok>, i: nat, e: Expression): Option<nat>
    decreases e, 3
  {
    if e.Or? then OpenSpan(ts, i, e) else AndSpan(ts, i, e)
  }

  ghost function AndMoreSpan(ts: seq<Tok>, i: nat, parts: seq<Expression>): Option<nat>
    decreases parts
  {
    if parts == [] then Some(i)
    else
      var m := if At(ts, i, TAnd) then UnarySpan(ts, i + 1, parts[0]) else None;
      if m.Some? then AndMoreSpan(ts, m.value, parts[1..]) else None
  }

  ghost function OrMoreSpan(ts: seq<Tok>, i: nat, parts: seq<Expression>): Option<nat>
    decreases parts
  {
    if parts == [] then Some(i)
    else
      var m := if At(ts, i, TOr) then AndSpan(ts, i + 1, parts[0]) else None;
      if m.Some? then OrMoreSpan(ts, m.value, parts[1..]) else None
  }

  // Named facts about spans.

  ghost predicate UnaryTo(ts: seq<Tok>, i: nat, e: Expression, n: nat) { UnarySpan(ts, i, e) == Some(n) }

  ghost predicate OpenTo(ts: seq<Tok>, i: nat, e: Expression, n: nat)
  {
    (e.And? || e.Or?) && OpenSpan(ts, i, e) == Some(n)
  }

  ghost predicate AndTo(ts: seq<Tok>, i: nat, e: Expression, n: nat) { AndSpan(ts, i, e) == Some(n) }

  ghost predicate OrTo(ts: seq<Tok>, i: nat, e: Expression, n: nat) { OrSpan(ts, i, e) == Some(n) }

  ghost predicate AndMoreTo(ts: seq<Tok>, i: nat, parts: seq<Expression>, n: nat)
  {
    AndMoreSpan(ts, i, parts) == Some(n)
  }

  ghost predicate OrMoreTo(ts: seq<Tok>, i: nat, parts: seq<Expression>, n: nat) { OrMoreSpan(ts, i, parts) == Some(n) }

  // The printed tokens span what they should.

  ghost predicate UnaryFits(e: Expression, ts: seq<Tok>, i: nat) { UnaryTo(ts, i, e, i + |UnaryToks(e)|) }

  ghost predicate OpenFits(e: Expression, ts: seq<Tok>, i: nat)
    requires e.And? || e.Or?
  {
    OpenTo(ts, i, e, i + |OpenToks(e)|)
  }

  ghost predicate AndMoreFits(parts: seq<Expression>, ts: seq<Tok>, i: nat)
  {
    AndMoreTo(ts, i, parts, i + |AndMoreToks(parts)|)
  }

  lemma ParenOccurs(e: Expression, ts: seq<Tok>, i: nat)
    requires (e.And? || e.Or?) && Occurs(ts, i, UnaryToks(e))
    ensures At(ts, i, LParen) && Occurs(ts, i + 1, OpenToks(e)) && At(ts, i + 1 + |OpenToks(e)|, RParen)
  {
    assert UnaryToks(e) == [LParen] + OpenToks(e) + [RParen];
    OccursTail(ts, i, LParen, OpenToks(e), [RParen]);
  }

  lemma ParenFits(e: Expression, ts: seq<Tok>, i: nat)
    requires (e.And? || e.Or?) && At(ts, i, LParen) && OpenFits(e, ts, i + 1) && At(ts, i + 1 + |OpenToks(e)|, RParen)
    ensures UnaryFits(e, ts, i)
  {
    assert UnaryToks(e) == [LParen] + OpenToks(e) + [RParen];
  }

  lemma OpenAndOccurs(e: Expression, ts: seq<Tok>, i: nat)
    requires e.And? && e.parts != [] && Occurs(ts, i, OpenToks(e))
    ensures Occurs(ts, i, UnaryToks(e.parts[0])) && Occurs(ts, i + |UnaryToks(e.parts[0])|, AndMoreToks(e.parts[1..]))
  {
    assert OpenToks(e) == UnaryToks(e.parts[0]) + AndMoreToks(e.parts[1..]);
    OccursParts(ts, i, UnaryToks(e.parts[0]), AndMoreToks(e.parts[1..]));
  }

  lemma OpenAndFits(e: Expression, ts: seq<Tok>, i: nat)
    requires e.And? && e.parts != []
    requires UnaryFits(e.parts[0], ts, i) && AndMoreFits(e.parts[1..], ts, i + |UnaryToks(e.parts[0])|)
    ensures OpenFits(e, ts, i)
  {
    assert OpenToks(e) == UnaryToks(e.parts[0]) + AndMoreToks(e.parts[1..]);
  }

  lemma AndMoreOccurs(parts: seq<Expression>, ts: seq<Tok>, i: nat)
    requires parts != [] && Occurs(ts, i, AndMoreToks(parts))
    ensures At(ts, i, TAnd) && Occurs(ts, i + 1, UnaryToks(parts[0]))
    ensures Occurs(ts, i + 1 + |UnaryToks(parts[0])|, AndMoreToks(parts[1..]))
  {
    assert AndMoreToks(parts) == [TAnd] + UnaryToks(parts[0]) + AndMoreToks(parts[1..]);
    OccursTail(ts, i, TAnd, UnaryToks(parts[0]), AndMoreToks(parts[1..]));
  }

  lemma AndMoreJoins(parts: seq<Expression>, ts: seq<Tok>, i: nat)
    requires parts != [] && At(ts, i, TAnd)
    requires UnaryFits(parts[0], ts, i + 1) && AndMoreFits(parts[1..], ts, i + 1 + |UnaryToks(parts[0])|)
    ensures AndMoreFits(parts, ts, i)
  {
    assert AndMoreToks(parts) == [TAnd] + UnaryToks(parts[0]) + AndMoreToks(parts[1..]);
  }

  lemma {:induction false} UnaryLaidOut(e: Expression, ts: seq<Tok>, i: nat)
    requires Shaped(e) && Occurs(ts, i, UnaryToks(e))
    ensures UnaryFits(e, ts, i)
    decreases e, 1
  {
    if e.Cond? {
      ConditionLaidOut(e.c, ts, i);
    } else if e.Not? {
      OccursParts(ts, i, [TNot], UnaryToks(e.inner));
      UnaryLaidOut(e.inner, ts, i + 1);
    } else if e.And? || e.Or? {
      ParenLaidOut(e, ts, i);
    }
  }

  lemma {:induction false} ParenLaidOut(e: Expression, ts: seq<Tok>, i: nat)
    requires (e.And? || e.Or?) && Shaped(e) && Occurs(ts, i, UnaryToks(e))
    ensures UnaryFits(e, ts, i)
    decreases e, 0, 2
  {
    ParenOccurs(e, ts, i);
    if e.And? { OpenAndLaidOut(e, ts, i + 1); } else { OpenOrLaidOut(e, ts, i + 1); }
    ParenFits(e, ts, i);
  }

  lemma FirstShaped(e: Expression)
    requires (e.And? || e.Or?) && Shaped(e)
    ensures e.parts != [] && Shaped(e.parts[0]) && AllShaped(e.parts[1..])
  {
  }

  lemma {:induction false} OpenAndLaidOut(e: Expression, ts: seq<Tok>, i: nat)
    requires e.And? && Shaped(e) && Occurs(ts, i, OpenToks(e))
    ensures OpenFits(e, ts, i)
    decreases e, 0, 0
  {
    FirstShaped(e);
    OpenAndOccurs(e, ts, i);
    UnaryLaidOut(e.parts[0], ts, i);
    AndMoreLaidOut(e.parts[1..], ts, i + |UnaryToks(e.parts[0])|);
    OpenAndFits(e, ts, i);
  }

  lemma {:induction false} OpenOrLaidOut(e: Expression, ts: seq<Tok>, i: nat)
    requires e.Or? && Shaped(e) && Occurs(ts, i, OpenToks(e))
    ensures OpenFits(e, ts, i)
    decreases e, 0, 0
  {
    var first, more := e.parts[0], e.parts[1..];
    var x, y := AndToks(first), OrMoreToks(more);
    assert OpenToks(e) == x + y;
    OccursParts(ts, i, x, y);
    AndLaidOut(first, ts, i);
    OrMoreLaidOut(more, ts, i + |x|);
  }

  lemma {:induction false} AndLaidOut(e: Expression, ts: seq<Tok>, i: nat)
    requires Shaped(e) && Occurs(ts, i, AndToks(e))
    ensures AndTo(ts, i, e, i + |AndToks(e)|)
    decreases e, 2
  {
    if e.And? { OpenAndLaidOut(e, ts, i); } else { UnaryLaidOut(e, ts, i); }
  }

  lemma {:induction false} OrLaidOut(e: Expression, ts: seq<Tok>, i: nat)
    requires Shaped(e) && Occurs(ts, i, OrToks(e))
    ensures OrTo(ts, i, e, i + |OrToks(e)|)
    decreases e, 3
  {
    if e.Or? { OpenOrLaidOut(e, ts, i); } else { AndLaidOut(e, ts, i); }
  }

  lemma {:induction false} AndMoreLaidOut(parts: seq<Expression>, ts: seq<Tok>, i: nat)
    requires AllShaped(parts) && Occurs(ts, i, AndMoreToks(parts))
    ensures AndMoreFits(parts, ts, i)
    decreases parts
  {
    if parts != [] {
      AndMoreOccurs(parts, ts, i);
      UnaryLaidOut(parts[0], ts, i + 1);
      AndMoreLaidOut(parts[1..], ts, i + 1 + |UnaryToks(parts[0])|);
      AndMoreJoins(parts, ts, i);
    }
  }

  lemma {:induction false} OrMoreLaidOut(parts: seq<Expression>, ts: seq<Tok>, i: nat)
    requires AllShaped(parts) && Occurs(ts, i, OrMoreToks(parts))
    ensures OrMoreTo(ts, i, parts, i + |OrMoreToks(parts)|)
    decreases parts
  {
    if parts != [] {
      var x, y := AndToks(parts[0]), OrMoreToks(parts[1..]);
      assert OrMoreToks(parts) == [TOr] + x + y;
      OccursTail(ts, i, TOr, x, y);
      AndLaidOut(parts[0], ts, i + 1);
      OrMoreLaidOut(parts[1..], ts, i + 1 + |x|);
    }
  }

  /** What may follow a conjunction, and what may follow a conjunct. */
  predicate OrEnds(ts: seq<Tok>, i: nat) { i >= |ts| || ts[i] == RParen }
  predicate AndEnds(ts: seq<Tok>, i: nat) { OrEnds(ts, i) || ts[i] == TOr }
  predicate UnaryEnds(ts: seq<Tok>, i: nat) { AndEnds(ts, i) || ts[i] == TAnd }

  // What each parsing function answers at a position, as named facts.

  ghost predicate GivesUnary(ts: seq<Tok>, i: nat, e: Expression, n: nat)
  {
    i <= |ts| && UnaryFrom(ts, i) == Some(Parsed(e, n))
  }

  ghost predicate GivesAnd(ts: seq<Tok>, i: nat, e: Expression, n: nat)
  {
    i <= |ts| && AndFrom(ts, i) == Some(Parsed(e, n))
  }

  ghost predicate GivesOr(ts: seq<Tok>, i: nat, e: Expression, n: nat)
  {
    i <= |ts| && OrFrom(ts, i) == Some(Parsed(e, n))
  }

  ghost predicate GivesAndRest(ts: seq<Tok>, i: nat, seen: seq<Expression>, e: Expression, n: nat)
  {
    i <= |ts| && seen != [] && AndRest(ts, i, seen) == Some(Parsed(e, n))
  }

  ghost predicate GivesOrRest(ts: seq<Tok>, i: nat, seen: seq<Expression>, e: Expression, n: nat)
  {
    i <= |ts| && seen != [] && OrRest(ts, i, seen) == Some(Parsed(e, n))
  }

  // One step of the grammar each.

  lemma NotStep(ts: seq<Tok>, i: nat, e: Expression, n: nat)
    requires At(ts, i, TNot) && GivesUnary(ts, i + 1, e, n)
    ensures GivesUnary(ts, i, Not(e), n)
  {
  }

  lemma ParenStep(ts: seq<Tok>, i: nat, e: Expression, n: nat)
    requires At(ts, i, LParen) && GivesOr(ts, i + 1, e, n) && At(ts, n, RParen)
    ensures GivesUnary(ts, i, e, n + 1)
  {
  }

  lemma AndFirst(ts: seq<Tok>, i: nat, first: Expression, m: nat, e: Expression, n: nat)
    requires GivesUnary(ts, i, first, m) && GivesAndRest(ts, m, [first], e, n)
    ensures GivesAnd(ts, i, e, n)
  {
  }

  lemma OrFirst(ts: seq<Tok>, i: nat, first: Expression, m: nat, e: Expression, n: nat)
    requires GivesAnd(ts, i, first, m) && GivesOrRest(ts, m, [first], e, n)
    ensures GivesOr(ts, i, e, n)
  {
  }

  lemma AndStep(ts: seq<Tok>, i: nat, seen: seq<Expression>, next: Expression, m: nat, e: Expression, n: nat)
    requires seen != [] && At(ts, i, TAnd) && GivesUnary(ts, i + 1, next, m) && GivesAndRest(ts, m, seen + [next], e, n)
    ensures GivesAndRest(ts, i, seen, e, n)
  {
  }

  lemma OrStep(ts: seq<Tok>, i: nat, seen: seq<Expression>, next: Expression, m: nat, e: Expression, n: nat)
    requires seen != [] && At(ts, i, TOr) && GivesAnd(ts, i + 1, next, m) && GivesOrRest(ts, m, seen + [next], e, n)
    ensures GivesOrRest(ts, i, seen, e, n)
  {
  }

  lemma AndStops(ts: seq<Tok>, i: nat, seen: seq<Expression>)
    requires i <= |ts| && seen != [] && AndEnds(ts, i)
    ensures GivesAndRest(ts, i, seen, AllOf(seen), i)
  {
  }

  lemma OrStops(ts: seq<Tok>, i: nat, seen: seq<Expression>)
    requires i <= |ts| && seen != [] && OrEnds(ts, i)
    ensures GivesOrRest(ts, i, seen, AnyOf(seen), i)
  {
  }

  lemma ConditionReparses(c: Condition, ts: seq<Tok>, i: nat)
    requires !c.IsFalse? && ConditionAt(ts, i, c) && UnaryEnds(ts, i + |ConditionToks(c)|)
    ensures GivesUnary(ts, i, Cond(c), i + |ConditionToks(c)|)
  {
    match c {
      case Comparison(key, op, value) => ComparisonStep(ts, i, key, op, value);
      case InSet(v, setKey, negate) => InSetStep(ts, i, v, setKey, negate);
      case IsTrue(key) => IsTrueStep(ts, i, key);
      case Exists(key) => ExistsStep(ts, i, key);
    }
  }

  lemma ComparisonStep(ts: seq<Tok>, i: nat, key: string, op: CompareOp, value: Literal)
    requires At(ts, i, Ident(key)) && At(ts, i + 1, OpTok(op)) && At(ts, i + 2, LiteralTok(value))
    ensures GivesUnary(ts, i, Cond(Comparison(key, op, value)), i + 3)
  {
  }

  lemma InSetStep(ts: seq<Tok>, i: nat, v: string, setKey: string, negate: bool)
    requires At(ts, i, Ident(v))
    requires if negate then At(ts, i + 1, Ident("not")) && At(ts, i + 2, KwIn) && At(ts, i + 3, Ident(setKey))
             else At(ts, i + 1, KwIn) && At(ts, i + 2, Ident(setKey))
    ensures GivesUnary(ts, i, Cond(InSet(v, setKey, negate)), if negate then i + 4 else i + 3)
  {
  }

  lemma IsTrueStep(ts: seq<Tok>, i: nat, key: string)
    requires At(ts, i, Ident(key)) && UnaryEnds(ts, i + 1)
    ensures GivesUnary(ts, i, Cond(IsTrue(key)), i + 1)
  {
  }

  lemma ExistsStep(ts: seq<Tok>, i: nat, key: string)
    requires At(ts, i, KwExists) && At(ts, i + 1, LParen) && At(ts, i + 2, Ident(key)) && At(ts, i + 3, RParen)
    ensures GivesUnary(ts, i, Cond(Exists(key)), i + 4)
  {
  }

  lemma {:induction false} UnaryReparses(e: Expression, ts: seq<Tok>, i: nat, n: nat)
    requires Shaped(e) && UnarySpan(ts, i, e) == Some(n) && UnaryEnds(ts, n)
    ensures GivesUnary(ts, i, e, n)
    decreases e, 1
  {
    if e.Cond? {
      ConditionReparses(e.c, ts, i);
    } else if e.Not? {
      UnaryReparses(e.inner, ts, i + 1, n);
      NotStep(ts, i, e.inner, n);
    } else {
      OpenReparses(e, ts, i + 1, n - 1);
      ParenStep(ts, i, e, n - 1);
    }
  }

  lemma {:induction false} OpenReparses(e: Expression, ts: seq<Tok>, i: nat, n: nat)
    requires (e.And? || e.Or?) && Shaped(e) && OpenSpan(ts, i, e) == Some(n) && OrEnds(ts, n)
    ensures GivesOr(ts, i, e, n)
    decreases e, 0, 1
  {
    if e.And? {
      OpenAndReparses(e, ts, i, n);
      OrStops(ts, n, [e]);
      OrFirst(ts, i, e, n, e, n);
    } else {
      var first, more := e.parts[0], e.parts[1..];
      var m := AndSpan(ts, i, first).value;
      OrMoreFollows(more, ts, m, n);
      AndReparses(first, ts, i, m);
      OrMoreReparses(more, [first], ts, m, n);
      assert AnyOf([first] + more) == e by { assert [first] + more == e.parts; }
      OrFirst(ts, i, first, m, e, n);
    }
  }

  lemma {:induction false} OpenAndReparses(e: Expression, ts: seq<Tok>, i: nat, n: nat)
    requires e.And? && Shaped(e) && OpenSpan(ts, i, e) == Some(n) && AndEnds(ts, n)
    ensures GivesAnd(ts, i, e, n)
    decreases e, 0, 0
  {
    var first, more := e.parts[0], e.parts[1..];
    var m := UnarySpan(ts, i, first).value;
    AndMoreFollows(more, ts, m, n);
    UnaryReparses(first, ts, i, m);
    AndMoreReparses(more, [first], ts, m, n);
    assert AllOf([first] + more) == e by { assert [first] + more == e.parts; }
    AndFirst(ts, i, first, m, e, n);
  }

  lemma {:induction false} AndReparses(e: Expression, ts: seq<Tok>, i: nat, n: nat)
    requires Shaped(e) && AndSpan(ts, i, e) == Some(n) && AndEnds(ts, n)
    ensures GivesAnd(ts, i, e, n)
    decreases e, 2
  {
    if e.And? {
      OpenAndReparses(e, ts, i, n);
    } else {
      UnaryReparses(e, ts, i, n);
      AndStops(ts, n, [e]);
      AndFirst(ts, i, e, n, e, n);
    }
  }

  lemma {:induction false} OrReparses(e: Expression, ts: seq<Tok>, i: nat, n: nat)
    requires Shaped(e) && OrSpan(ts, i, e) == Some(n) && OrEnds(ts, n)
    ensures GivesOr(ts, i, e, n)
    decreases e, 3
  {
    if e.Or? {
      OpenReparses(e, ts, i, n);
    } else {
      AndReparses(e, ts, i, n);
      OrStops(ts, n, [e]);
      OrFirst(ts, i, e, n, e, n);
    }
  }

  /** What follows a conjunct: the next one, or what follows the conjunction. */
  lemma AndMoreFollows(parts: seq<Expression>, ts: seq<Tok>, i: nat, n: nat)
    requires AndMoreSpan(ts, i, parts) == Some(n) && AndEnds(ts, n)
    ensures UnaryEnds(ts, i)
  {
  }

  lemma OrMoreFollows(parts: seq<Expression>, ts: seq<Tok>, i: nat, n: nat)
    requires OrMoreSpan(ts, i, parts) == Some(n) && OrEnds(ts, n)
    ensures AndEnds(ts, i)
  {
  }

  lemma {:induction false} AndMoreReparses(parts: seq<Expression>, seen: seq<Expression>, ts: seq<Tok>, i: nat, n: nat)
    requires seen != [] && (forall k | 0 <= k < |parts| :: Shaped(parts[k])) && i <= |ts|
    requires AndMoreSpan(ts, i, parts) == Some(n) && AndEnds(ts, n)
    ensures GivesAndRest(ts, i, seen, AllOf(seen + parts), n)
    decreases parts
  {
    if parts == [] {
      assert seen + parts == seen;
      AndStops(ts, i, seen);
    } else {
      var m := UnarySpan(ts, i + 1, parts[0]).value;
      AndMoreFollows(parts[1..], ts, m, n);
      UnaryReparses(parts[0], ts, i + 1, m);
      AndMoreReparses(parts[1..], seen + [parts[0]], ts, m, n);
      assert seen + [parts[0]] + parts[1..] == seen + parts;
      AndStep(ts, i, seen, parts[0], m, AllOf(seen + parts), n);
    }
  }

  lemma {:induction false} OrMoreReparses(parts: seq<Expression>, seen: seq<Expression>, ts: seq<Tok>, i: nat, n: nat)
    requires seen != [] && (forall k | 0 <= k < |parts| :: Shaped(parts[k])) && i <= |ts|
    requires OrMoreSpan(ts, i, parts) == Some(n) && OrEnds(ts, n)
    ensures GivesOrRest(ts, i, seen, AnyOf(seen + parts), n)
    decreases parts
  {
    if parts == [] {
      assert seen + parts == seen;
      OrStops(ts, i, seen);
    } else {
      var m := AndSpan(ts, i + 1, parts[0]).value;
      OrMoreFollows(parts[1..], ts, m, n);
      AndReparses(parts[0], ts, i + 1, m);
      OrMoreReparses(parts[1..], seen + [parts[0]], ts, m, n);
      assert seen + [parts[0]] + parts[1..] == seen + parts;
      OrStep(ts, i, seen, parts[0], m, AnyOf(seen + parts), n);
    }
  }

  /** The parser reads the tokens of a shaped expression back. */
  lemma TokensReparse(e: Expression)
    requires Shaped(e)
    ensures ParseTokens(OrToks(e)) == Some(e)
  {
    var ts := OrToks(e);
    assert ts[0..] == ts;
    OccursWhole(ts, 0);
    OrLaidOut(e, ts, 0);
    OrReparses(e, ts, 0, |ts|);
  }
}
