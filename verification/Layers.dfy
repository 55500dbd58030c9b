/** Stacking configuration layers (`CompiledRoute::apply_layer` in `rules.rs`). */
module Layers {
  import opened Text
  import opened Ir
  import opened World
  import opened Runs
  import opened Trees
  import opened Layering
  import opened Routes

  function Fields(rules: seq<FieldRule>): set<string>
  {
    set i | 0 <= i < |rules| :: rules[i].field
  }

  /** The rules whose field is not in `taken`, in order. */
  function Retained(rules: seq<FieldRule>, taken: set<string>): seq<FieldRule>
  {
    if rules == [] then []
    else if rules[0].field in taken then Retained(rules[1..], taken)
    else [rules[0]] + Retained(rules[1..], taken)
  }

  function OverRules(base: seq<FieldRule>, top: seq<FieldRule>): seq<FieldRule>
  {
    Retained(base, Fields(top)) + top
  }

  /** `top` over `base`: effects append, field rules and overrides of `top` replace those of `base`;
      the key and the denial response stay those of `base`. */
  function Over(base: CompiledRoute, top: CompiledRoute): CompiledRoute
  {
    CompiledRoute(base.key, OverRules(base.args, top.args), base.policy + top.policy,
                  OverRules(base.result, top.result), base.postPolicy + top.postPolicy,
                  base.overrides + top.overrides, base.response)
  }

  /** Layers from least to most specific. */
  function Stack(base: CompiledRoute, layers: seq<CompiledRoute>): CompiledRoute
    decreases |layers|
  {
    if layers == [] then base else Stack(Over(base, layers[0]), layers[1..])
  }

  // ----- as it runs -----

  class Effective {
    var route: CompiledRoute

    constructor (base: CompiledRoute)
      ensures route == base
    {
      route := base;
    }

    method ApplyLayer(top: CompiledRoute)
      modifies this
      ensures route == Over(old(route), top)
    {
      route := route.(policy := route.policy + top.policy, postPolicy := route.postPolicy + top.postPolicy);
      var args := Replaced(route.args, top.args);
      route := route.(args := args);
      var result := Replaced(route.result, top.result);
      route := route.(result := result, overrides := route.overrides + top.overrides);
    }

    method ApplyAll(layers: seq<CompiledRoute>)
      modifies this
      ensures route == Stack(old(route), layers)
    {
      assert layers[0..] == layers;
      for i := 0 to |layers|
        invariant Stack(old(route), layers) == Stack(route, layers[i..])
      {
        assert layers[i..][0] == layers[i] && layers[i..][1..] == layers[i + 1..];
        ApplyLayer(layers[i]);
      }
    }
  }

  /** Drop the rules the new layer redefines, then push the new layer's. */
  method Replaced(base: seq<FieldRule>, top: seq<FieldRule>) returns (rules: seq<FieldRule>)
    ensures rules == OverRules(base, top)
  {
    var redefined: set<string> := {};
    for i := 0 to |top|
      invariant redefined == set j | 0 <= j < i :: top[j].field
    {
      redefined := redefined + {top[i].field};
    }
    rules := [];
    assert base[0..] == base;
    for i := 0 to |base|
      invariant Retained(base, redefined) == rules + Retained(base[i..], redefined)
    {
      assert base[i..][0] == base[i] && base[i..][1..] == base[i + 1..];
      if base[i].field !in redefined { rules := rules + [base[i]]; }
    }
    rules := rules + top;
  }

  // ----- associativity -----

  lemma {:induction false} RetainedConcat(a: seq<FieldRule>, b: seq<FieldRule>, taken: set<string>)
    ensures Retained(a + b, taken) == Retained(a, taken) + Retained(b, taken)
  {
    if a == [] {
      assert a + b == b;
    } else {
      assert (a + b)[1..] == a[1..] + b;
      RetainedConcat(a[1..], b, taken);
    }
  }

  lemma {:induction false} RetainedTwice(a: seq<FieldRule>, s: set<string>, t: set<string>)
    ensures Retained(Retained(a, s), t) == Retained(a, s + t)
  {
    if a != [] {
      RetainedTwice(a[1..], s, t);
      if a[0].field !in s { RetainedConcat([a[0]], Retained(a[1..], s), t); }
    }
  }

  lemma {:induction false} RetainedFields(a: seq<FieldRule>, taken: set<string>)
    ensures Fields(Retained(a, taken)) == Fields(a) - taken
  {
    if a != [] {
      RetainedFields(a[1..], taken);
      assert a == [a[0]] + a[1..];
      FieldsConcat([a[0]], a[1..]);
      if a[0].field !in taken { FieldsConcat([a[0]], Retained(a[1..], taken)); }
    }
  }

  lemma FieldsConcat(a: seq<FieldRule>, b: seq<FieldRule>)
    ensures Fields(a + b) == Fields(a) + Fields(b)
  {
    forall i | 0 <= i < |a| ensures a[i].field in Fields(a + b) { assert (a + b)[i] == a[i]; }
    forall i | 0 <= i < |b| ensures b[i].field in Fields(a + b) { assert (a + b)[|a| + i] == b[i]; }
  }

  lemma OverRulesFields(a: seq<FieldRule>, b: seq<FieldRule>)
    ensures Fields(OverRules(a, b)) == Fields(a) + Fields(b)
  {
    FieldsConcat(Retained(a, Fields(b)), b);
    RetainedFields(a, Fields(b));
  }

  lemma OverRulesAssociative(a: seq<FieldRule>, b: seq<FieldRule>, c: seq<FieldRule>)
    ensures OverRules(OverRules(a, b), c) == OverRules(a, OverRules(b, c))
  {
    var fb, fc := Fields(b), Fields(c);
    OverRulesFields(b, c);
    RetainedConcat(Retained(a, fb), b, fc);
    RetainedTwice(a, fb, fc);
    assert Retained(a, fb + fc) + (Retained(b, fc) + c) == Retained(a, fb + fc) + Retained(b, fc) + c;
  }

  /** Layers can be grouped as one likes. */
  lemma OverAssociative(a: CompiledRoute, b: CompiledRoute, c: CompiledRoute)
    ensures Over(Over(a, b), c) == Over(a, Over(b, c))
  {
    OverRulesAssociative(a.args, b.args, c.args);
    OverRulesAssociative(a.result, b.result, c.result);
    assert a.policy + b.policy + c.policy == a.policy + (b.policy + c.policy);
    assert a.postPolicy + b.postPolicy + c.postPolicy == a.postPolicy + (b.postPolicy + c.postPolicy);
    assert a.overrides + b.overrides + c.overrides == a.overrides + (b.overrides + c.overrides);
  }

  // ----- one rule per field, from the last layer declaring it -----

  predicate Unique(rules: seq<FieldRule>)
  {
    forall i, j :: 0 <= i < j < |rules| ==> rules[i].field != rules[j].field
  }

  predicate Declares(rules: seq<FieldRule>, rule: FieldRule) { exists i :: 0 <= i < |rules| && rules[i] == rule }

  lemma {:induction false} RetainedExactly(rules: seq<FieldRule>, taken: set<string>, rule: FieldRule)
    ensures Declares(Retained(rules, taken), rule) <==> Declares(rules, rule) && rule.field !in taken
  {
    if rules != [] {
      RetainedExactly(rules[1..], taken, rule);
      assert rules == [rules[0]] + rules[1..];
      DeclaresConcat([rules[0]], rules[1..], rule);
      if rules[0].field !in taken { DeclaresConcat([rules[0]], Retained(rules[1..], taken), rule); }
    }
  }

  lemma DeclaresConcat(a: seq<FieldRule>, b: seq<FieldRule>, rule: FieldRule)
    ensures Declares(a + b, rule) <==> Declares(a, rule) || Declares(b, rule)
  {
    forall i | 0 <= i < |a| ensures (a + b)[i] == a[i] {}
    forall i | 0 <= i < |b| ensures (a + b)[|a| + i] == b[i] {}
  }

  /** The rules of the upper layer, and those of the lower one on fields the upper leaves alone. */
  lemma OverDeclares(base: seq<FieldRule>, top: seq<FieldRule>, rule: FieldRule)
    ensures Declares(OverRules(base, top), rule) <==>
      Declares(top, rule) || (Declares(base, rule) && rule.field !in Fields(top))
  {
    RetainedExactly(base, Fields(top), rule);
    DeclaresConcat(Retained(base, Fields(top)), top, rule);
  }

  lemma {:induction false} RetainedUnique(rules: seq<FieldRule>, taken: set<string>)
    requires Unique(rules)
    ensures Unique(Retained(rules, taken))
  {
    if rules != [] {
      RetainedUnique(rules[1..], taken);
      RetainedFields(rules[1..], taken);
      var rest := Retained(rules[1..], taken);
      forall j | 0 <= j < |rest| ensures rules[0].field != rest[j].field {
        assert rest[j].field in Fields(rest) && rest[j].field in Fields(rules[1..]);
      }
    }
  }

  /** Field names stay unique. */
  lemma OverUnique(base: seq<FieldRule>, top: seq<FieldRule>)
    requires Unique(base) && Unique(top)
    ensures Unique(OverRules(base, top))
  {
    var kept := Retained(base, Fields(top));
    RetainedUnique(base, Fields(top));
    RetainedFields(base, Fields(top));
    forall i, j | 0 <= i < |kept| && 0 <= j < |top| ensures kept[i].field != top[j].field {
      assert kept[i].field in Fields(kept) && top[j].field in Fields(top);
    }
  }

  datatype Side = Args | Result

  function RulesOn(route: CompiledRoute, side: Side): seq<FieldRule>
  {
    if side.Args? then route.args else route.result
  }

  /** Layer `i` is the last to declare the rule's field, and declares this rule for it. */
  predicate LastGives(layers: seq<CompiledRoute>, i: nat, side: Side, rule: FieldRule)
  {
    i < |layers| && Declares(RulesOn(layers[i], side), rule) && NoneDeclares(layers[i + 1..], side, rule.field)
  }

  predicate NoneDeclares(layers: seq<CompiledRoute>, side: Side, field: string)
  {
    forall i :: 0 <= i < |layers| ==> field !in Fields(RulesOn(layers[i], side))
  }

  ghost predicate SomeLastGives(layers: seq<CompiledRoute>, side: Side, rule: FieldRule)
  {
    exists i: nat :: LastGives(layers, i, side, rule)
  }

  /** Each field gets the rule of the last layer declaring it; a field no layer declares keeps the
      rule of the base. */
  lemma {:induction false} LastLayerWins(base: CompiledRoute, layers: seq<CompiledRoute>, side: Side, rule: FieldRule)
    ensures Declares(RulesOn(Stack(base, layers), side), rule) <==>
      || SomeLastGives(layers, side, rule)
      || (Declares(RulesOn(base, side), rule) && NoneDeclares(layers, side, rule.field))
    decreases |layers|
  {
    if layers != [] {
      LastLayerWins(Over(base, layers[0]), layers[1..], side, rule);
      OverDeclares(RulesOn(base, side), RulesOn(layers[0], side), rule);
      FirstOrLater(layers, side, rule);
      assert NoneDeclares(layers, side, rule.field) <==>
        rule.field !in Fields(RulesOn(layers[0], side)) && NoneDeclares(layers[1..], side, rule.field) by {
        assert forall i :: 0 < i < |layers| ==> layers[i] == layers[1..][i - 1];
      }
    }
  }

  lemma FirstOrLater(layers: seq<CompiledRoute>, side: Side, rule: FieldRule)
    requires layers != []
    ensures SomeLastGives(layers, side, rule) <==>
      SomeLastGives(layers[1..], side, rule)
      || (Declares(RulesOn(layers[0], side), rule) && NoneDeclares(layers[1..], side, rule.field))
  {
    var rest := layers[1..];
    forall i: nat | i < |rest| ensures LastGives(rest, i, side, rule) <==> LastGives(layers, i + 1, side, rule) {
      assert rest[i + 1..] == layers[i + 2..];
    }
    if SomeLastGives(layers, side, rule) {
      var i: nat :| LastGives(layers, i, side, rule);
      if i > 0 { assert LastGives(rest, i - 1, side, rule); }
    }
    if SomeLastGives(rest, side, rule) {
      var i: nat :| LastGives(rest, i, side, rule);
      assert LastGives(layers, i + 1, side, rule);
    }
    if Declares(RulesOn(layers[0], side), rule) && NoneDeclares(rest, side, rule.field) {
      assert LastGives(layers, 0, side, rule);
    }
  }

  // ----- effects are appended -----

  lemma {:induction false} StackAppends(base: CompiledRoute, layers: seq<CompiledRoute>)
    returns (more: seq<Effect>, postMore: seq<Effect>)
    ensures Stack(base, layers).policy == base.policy + more
    ensures Stack(base, layers).postPolicy == base.postPolicy + postMore
    decreases |layers|
  {
    if layers == [] {
      more, postMore := [], [];
    } else {
      var m, p := StackAppends(Over(base, layers[0]), layers[1..]);
      more, postMore := layers[0].policy + m, layers[0].postPolicy + p;
    }
  }

  /** The effects later layers append change no denial or suspension of the earlier ones from the same
      state: the run is the very same, calls included.  Field rules are another matter. */
  lemma EarlierVerdictStands(base: CompiledRoute, layers: seq<CompiledRoute>, st: State, pos: Pos, env: Env)
    ensures !Steps(base.policy, st, pos, env).outcome.Continue? ==>
      Steps(Stack(base, layers).policy, st, pos, env) == Steps(base.policy, st, pos, env)
    ensures !Steps(base.postPolicy, st, pos, env).outcome.Continue? ==>
      Steps(Stack(base, layers).postPolicy, st, pos, env) == Steps(base.postPolicy, st, pos, env)
  {
    var more, postMore := StackAppends(base, layers);
    WalkConcat(base.policy, more, "", st, pos, 0, env);
    WalkConcat(base.postPolicy, postMore, "", st, pos, 0, env);
  }
}
