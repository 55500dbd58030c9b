/** The rule-level `require(...)` shorthand (`parse_require_rule` in `parser.rs`) and its
    agreement with the predicate syntax. */
module Require {
  import opened Text
  import opened Ir
  import opened Attributes
  import opened Lexer
  import opened PredParser
  import opened RoundTrip
  import opened Printing

  function Falses(keys: seq<string>): (es: seq<Expression>)
    ensures |es| == |keys|
  {
    seq(|keys|, k requires 0 <= k < |keys| => Cond(IsFalse(keys[k])))
  }

  function Trues(keys: seq<string>): (es: seq<Expression>)
    ensures |es| == |keys|
  {
    seq(|keys|, k requires 0 <= k < |keys| => Cond(IsTrue(keys[k])))
  }

  /** The "when" condition: deny if any key is falsy (`,`), or if all are (`|`). */
  function Desugar(keys: seq<string>, sep: Option<Tok>): Expression
    requires keys != []
  {
    if |keys| == 1 then Falses(keys)[0]
    else if sep == Some(TOr) then And(Falses(keys))
    else Or(Falses(keys))
  }

  function RequireRest(ts: seq<Tok>, i: nat, keys: seq<string>, sep: Option<Tok>): Option<Expression>
    requires keys != []
    decreases |ts| - i
  {
    if i >= |ts| then None
    else if ts[i] == RParen then if i + 1 == |ts| then Some(Desugar(keys, sep)) else None
    else if (ts[i] == Comma || ts[i] == TOr) && (sep.None? || sep.value == ts[i]) && IdentAt(ts, i + 1) then
      RequireRest(ts, i + 2, keys + [ts[i + 1].name], Some(ts[i]))
    else None
  }

  function RequireTokens(ts: seq<Tok>): Option<Expression>
  {
    if At(ts, 0, KwRequire) && At(ts, 1, LParen) && IdentAt(ts, 2)
    then RequireRest(ts, 3, [ts[2].name], None) else None
  }

  /** `parse_require_rule`; `None` is any error. */
  function RequireCondition(line: string): Option<Expression>
  {
    match LexFrom(line, 0)
    case None => None
    case Some(ts) => RequireTokens(ts)
  }

  method ParseRequireRule(line: string) returns (r: Option<Expression>)
    ensures r == RequireCondition(line)
  {
    var lexer := new Scanner(line);
    var lexed := lexer.TokenizeAll();
    if lexed.None? { return None; }
    var ts := lexed.value;
    if !At(ts, 0, KwRequire) || !At(ts, 1, LParen) || !IdentAt(ts, 2) { return None; }
    var keys, sep, i := [ts[2].name], None, 3;
    while i < |ts| && ts[i] != RParen
      invariant 3 <= i && keys != []
      invariant RequireTokens(ts) == RequireRest(ts, i, keys, sep)
      decreases |ts| - i
    {
      var t := ts[i];
      if t != Comma && t != TOr { return None; }
      if sep.None? {
        sep := Some(t);
      } else if sep.value != t {
        return None;
      }
      if !IdentAt(ts, i + 1) { return None; }
      keys := keys + [ts[i + 1].name];
      i := i + 2;
    }
    if i >= |ts| { return None; }
    if i + 1 < |ts| { return None; }
    var e := DesugarKeys(keys, sep);
    return Some(e);
  }

  /** Deny when some key is false (commas), or when all are (bars). */
  method DesugarKeys(keys: seq<string>, sep: Option<Tok>) returns (e: Expression)
    requires keys != []
    ensures e == Desugar(keys, sep)
  {
    var falses: seq<Expression> := [];
    for k := 0 to |keys|
      invariant falses == Falses(keys)[..k]
    {
      falses := falses + [Cond(IsFalse(keys[k]))];
    }
    assert falses == Falses(keys);
    if |falses| == 1 { return falses[0]; }
    return if sep == Some(TOr) then And(falses) else Or(falses);
  }

  // ----- agreement -----

  predicate AllKeys(keys: seq<string>) { forall k :: 0 <= k < |keys| ==> IsKey(keys[k]) }

  /** The predicate over the bare keys: `a & b & ..` for commas, `a | b | ..` for bars. */
  function Positive(keys: seq<string>, any: bool): Expression
    requires keys != []
  {
    if any then AnyOf(Trues(keys)) else AllOf(Trues(keys))
  }

  lemma PositiveCanonical(keys: seq<string>, any: bool)
    requires keys != [] && AllKeys(keys)
    ensures Canonical(Positive(keys, any))
  {
  }

  /** A key that does not resolve is false to `IsTrue` and true to `IsFalse`. */
  lemma FalseIsNotTrue(key: string, bag: Bag, host: Host)
    ensures Eval(Cond(IsFalse(key)), bag, host) == !Eval(Cond(IsTrue(key)), bag, host)
  {
  }

  lemma DesugarNegates(keys: seq<string>, sep: Option<Tok>, bag: Bag, host: Host)
    requires keys != []
    ensures Eval(Desugar(keys, sep), bag, host) == !Eval(Positive(keys, sep == Some(TOr)), bag, host)
  {
    var fs, ts := Falses(keys), Trues(keys);
    forall k | 0 <= k < |keys| ensures Eval(fs[k], bag, host) == !Eval(ts[k], bag, host) {
      FalseIsNotTrue(keys[k], bag, host);
    }
    if |keys| > 1 {
      if sep == Some(TOr) {
        if Eval(And(fs), bag, host) {
          forall p | p in ts ensures !Eval(p, bag, host) { var k :| 0 <= k < |ts| && ts[k] == p; assert fs[k] in fs; }
        } else {
          var p :| p in fs && !Eval(p, bag, host);
          var k :| 0 <= k < |fs| && fs[k] == p;
          assert ts[k] in ts;
        }
      } else {
        if Eval(And(ts), bag, host) {
          forall p | p in fs ensures !Eval(p, bag, host) { var k :| 0 <= k < |fs| && fs[k] == p; assert ts[k] in ts; }
        } else {
          var p :| p in ts && !Eval(p, bag, host);
          var k :| 0 <= k < |ts| && ts[k] == p;
          assert fs[k] in fs;
        }
      }
    }
  }

  lemma {:induction false} RequireRestShape(ts: seq<Tok>, i: nat, keys: seq<string>, sep: Option<Tok>)
    returns (all: seq<string>, used: Option<Tok>)
    requires AllLexable(ts) && keys != [] && AllKeys(keys) && RequireRest(ts, i, keys, sep).Some?
    ensures all != [] && AllKeys(all) && RequireRest(ts, i, keys, sep) == Some(Desugar(all, used))
    decreases |ts| - i
  {
    if ts[i] == RParen {
      all, used := keys, sep;
    } else {
      assert Lexable(ts[i + 1]);
      all, used := RequireRestShape(ts, i + 2, keys + [ts[i + 1].name], Some(ts[i]));
    }
  }

  /** Every accepted `require(...)` line denies exactly when some predicate the parser
      accepts for the same keys is false, in every bag. */
  lemma RequireIsNegatedPredicate(line: string) returns (e: Expression)
    requires RequireCondition(line).Some?
    ensures ParsePredicate(Print(e)) == Some(e)
    ensures forall bag, host :: Eval(RequireCondition(line).value, bag, host) == !Eval(e, bag, host)
  {
    var ts := LexFrom(line, 0).value;
    LexedIsLexable(line, 0);
    assert Lexable(ts[2]);
    var keys, sep := RequireRestShape(ts, 3, [ts[2].name], None);
    e := Positive(keys, sep == Some(TOr));
    PositiveCanonical(keys, sep == Some(TOr));
    ParsePrint(e);
    forall bag, host ensures Eval(RequireCondition(line).value, bag, host) == !Eval(e, bag, host) {
      DesugarNegates(keys, sep, bag, host);
    }
  }

  // ----- and every key list can be written both ways -----

  function KeysToks(keys: seq<string>, sep: Tok): seq<Tok>
  {
    if keys == [] then [RParen] else [sep, Ident(keys[0])] + KeysToks(keys[1..], sep)
  }

  function RequireToks(keys: seq<string>, sep: Tok): seq<Tok>
    requires keys != []
  {
    [LParen, Ident(keys[0])] + KeysToks(keys[1..], sep)
  }

  /** `require( a , b )` with the given separator. */
  function RequireLine(keys: seq<string>, sep: Tok): string
    requires keys != []
  {
    "require" + Render(RequireToks(keys, sep))
  }

  lemma {:induction false} KeysToksLexable(keys: seq<string>, sep: Tok)
    requires AllKeys(keys) && (sep == Comma || sep == TOr)
    ensures AllLexable(KeysToks(keys, sep))
  {
    if keys != [] {
      KeysToksLexable(keys[1..], sep);
      LexableConcat([sep, Ident(keys[0])], KeysToks(keys[1..], sep));
    }
  }

  lemma {:induction false} RestReadsKeys(ts: seq<Tok>, i: nat, more: seq<string>, keys: seq<string>, sep: Tok,
                                         seen: Option<Tok>)
    requires keys != [] && (sep == Comma || sep == TOr) && i <= |ts| && ts[i..] == KeysToks(more, sep)
    requires seen == Some(sep) || (seen == None && |keys| == 1)
    ensures RequireRest(ts, i, keys, seen) == Some(Desugar(keys + more, if more == [] then seen else Some(sep)))
    decreases |more|
  {
    var x := KeysToks(more, sep);
    assert forall k :: 0 <= k < |x| ==> ts[i + k] == x[k];
    if more == [] {
      assert keys + more == keys;
    } else {
      assert ts[i + 2..] == x[2..] == KeysToks(more[1..], sep);
      assert ts[i + 0] == sep && ts[i + 1] == Ident(more[0]);
      RestReadsKeys(ts, i + 2, more[1..], keys + [more[0]], sep, Some(sep));
      assert keys + [more[0]] + more[1..] == keys + more;
    }
  }

  /** The keyword, with a parenthesised list written right behind it. */
  lemma RequireReads(s: string, ts: seq<Tok>)
    requires |s| >= 7 && s[..7] == "require" && s[7..] == Render(ts) && ts != [] && ts[0] == LParen
    ensures ReadsTo(s, 0, KwRequire, 7)
  {
    SpacedStarts(s, 7, Words(ts));
    assert Words(ts)[0] == "(" && s[7 + 0] == '(';
    assert forall k :: 0 <= k < 7 ==> s[0 + k] == s[..7][k];
    TokenReadsTo(s, 0, KwRequire);
  }

  lemma RequireToksLexable(keys: seq<string>, sep: Tok)
    requires keys != [] && AllKeys(keys) && (sep == Comma || sep == TOr)
    ensures AllLexable(RequireToks(keys, sep))
  {
    KeysToksLexable(keys[1..], sep);
    LexableConcat([LParen, Ident(keys[0])], KeysToks(keys[1..], sep));
  }

  lemma RequireLineLexes(keys: seq<string>, sep: Tok)
    requires keys != [] && AllKeys(keys) && (sep == Comma || sep == TOr)
    ensures LexesTo(RequireLine(keys, sep), 0, [KwRequire] + RequireToks(keys, sep))
  {
    var ts := RequireToks(keys, sep);
    RequireToksLexable(keys, sep);
    var s := RequireLine(keys, sep);
    assert s[7..] == Render(ts) && s[..7] == "require";
    RequireReads(s, ts);
    RenderedLexes(s, 7, ts);
    ReadsStep(s, 0, KwRequire, 7, ts);
  }

  /** A written `require(...)` line desugars over exactly its keys. */
  lemma RequireLineReads(keys: seq<string>, sep: Tok)
    requires keys != [] && AllKeys(keys) && (sep == Comma || sep == TOr)
    ensures RequireCondition(RequireLine(keys, sep)) == Some(Desugar(keys, if |keys| == 1 then None else Some(sep)))
  {
    var ts := [KwRequire] + RequireToks(keys, sep);
    RequireLineLexes(keys, sep);
    assert ts[3..] == KeysToks(keys[1..], sep);
    RestReadsKeys(ts, 3, keys[1..], [keys[0]], sep, None);
    assert [keys[0]] + keys[1..] == keys;
  }

  /** `require(a, b, ..)` is the negation of `a & b & ..`, and `require(a | b | ..)` of `a | b | ..`. */
  lemma TwoSyntaxesAgree(keys: seq<string>, sep: Tok, bag: Bag, host: Host)
    requires keys != [] && AllKeys(keys) && (sep == Comma || sep == TOr)
    ensures var positive := Positive(keys, sep == TOr);
      && RequireCondition(RequireLine(keys, sep)).Some?
      && ParsePredicate(Print(positive)) == Some(positive)
      && Eval(RequireCondition(RequireLine(keys, sep)).value, bag, host) == !Eval(positive, bag, host)
  {
    RequireLineReads(keys, sep);
    DesugarNegates(keys, Some(sep), bag, host);
    PositiveCanonical(keys, sep == TOr);
    ParsePrint(Positive(keys, sep == TOr));
  }
}
