/** When a later layer leaves an earlier layer's verdicts alone (`apply_layer` in `rules.rs` and the
    phases in `route.rs`): appended effects come too late to change a verdict, but field rules are
    replaced, and they run first. */
module LayerVerdicts {
  import opened Text
  import opened Json
  import opened Ir
  import opened World
  import opened Runs
  import opened Leaves
  import opened Trees
  import opened Engine
  import opened FieldRules
  import opened Layering
  import opened Routes
  import opened Layers

  /** Whatever the base, the request and the world: a pre phase that the base denies or suspends runs
      just the same under the layers. */
  ghost predicate PreVerdictsStand(layers: seq<CompiledRoute>)
  {
    forall base, st, w :: !Forwards(PreRun(base, st, w).report) ==>
      PreRun(Stack(base, layers), st, w) == PreRun(base, st, w)
  }

  ghost predicate PostVerdictsStand(layers: seq<CompiledRoute>)
  {
    forall base, st, w :: !Forwards(PostRun(base, st, w).report) ==>
      PostRun(Stack(base, layers), st, w) == PostRun(base, st, w)
  }

  predicate NoRulesOn(layers: seq<CompiledRoute>, side: Side)
  {
    forall i :: 0 <= i < |layers| ==> RulesOn(layers[i], side) == []
  }

  // ----- layers without field rules -----

  lemma {:induction false} RetainAll(rules: seq<FieldRule>)
    ensures Retained(rules, {}) == rules
  {
    if rules != [] { RetainAll(rules[1..]); }
  }

  lemma {:induction false} StackKeepsRules(base: CompiledRoute, layers: seq<CompiledRoute>, side: Side)
    requires NoRulesOn(layers, side)
    ensures RulesOn(Stack(base, layers), side) == RulesOn(base, side)
    decreases |layers|
  {
    if layers != [] {
      var rules := RulesOn(base, side);
      assert RulesOn(layers[0], side) == [] && Fields([]) == {};
      RetainAll(rules);
      assert rules + [] == rules;
      StackKeepsRules(Over(base, layers[0]), layers[1..], side);
    }
  }

  lemma PhaseStands(fields: FieldsRun, st: State, xs: seq<Effect>, more: seq<Effect>, pos: Pos, phase: Phase, w: World)
    requires !Forwards(PhaseOf(fields, st, xs, pos, phase, w).report)
    ensures PhaseOf(fields, st, xs + more, pos, phase, w) == PhaseOf(fields, st, xs, pos, phase, w)
  {
    WalkConcat(xs, more, "", st, pos, 0, In(phase, w));
  }

  lemma PreStands(base: CompiledRoute, layers: seq<CompiledRoute>, st: State, w: World)
    requires NoRulesOn(layers, Args) && !Forwards(PreRun(base, st, w).report)
    ensures PreRun(Stack(base, layers), st, w) == PreRun(base, st, w)
  {
    StackKeepsRules(base, layers, Args);
    var more, _ := StackAppends(base, layers);
    var fields := ArgsRun(base, st, w);
    PhaseStands(fields, st.(payload := st.payload.(args := fields.root)), base.policy, more, POLICY_AT, Pre, w);
  }

  lemma PostStands(base: CompiledRoute, layers: seq<CompiledRoute>, st: State, w: World)
    requires NoRulesOn(layers, Result) && !Forwards(PostRun(base, st, w).report)
    ensures PostRun(Stack(base, layers), st, w) == PostRun(base, st, w)
  {
    StackKeepsRules(base, layers, Result);
    var _, more := StackAppends(base, layers);
    if st.payload.result.None? {
      PhaseStands(NO_FIELDS, st, base.postPolicy, more, POST_POLICY_AT, Post, w);
    } else {
      var fields := ResultRun(base, st, w);
      PhaseStands(fields, st.(payload := st.payload.(result := Some(fields.root))), base.postPolicy, more,
                  POST_POLICY_AT, Post, w);
    }
  }

  // ----- a layer with a field rule -----

  /** A tree with a string at the path. */
  function Holding(path: Path): Json
  {
    if path == [] then Str("") else Obj(map[path[0] := Holding(path[1..])])
  }

  lemma {:induction false} HoldingHas(path: Path)
    ensures Get(Holding(path), path) == Some(Str(""))
  {
    if path != [] { HoldingHas(path[1..]); }
  }

  /** A route that rejects whatever a field holds, in its own name. */
  function Guard(side: Side, field: string, source: string): CompiledRoute
  {
    var rules := [FieldRule(field, [Validate("")], source)];
    CompiledRoute("", if side.Args? then rules else [], [], if side.Args? then [] else rules, [], map[], None)
  }

  lemma GuardRejects(side: Side, field: string, source: string, root: Json, bag: Bag, phase: Phase, pos: Pos, w: World)
    requires Get(root, Segments(field)).Some?
    ensures RunRules(RulesOn(Guard(side, field, source), side), root, 0, Pipelining(bag, phase, pos, w)).denied ==
      Some(Denied(Some(FieldRejected(NoSuchValidator(""))), source))
  {
    var rule := FieldRule(field, [Validate("")], source);
    assert RulesOn(Guard(side, field, source), side) == [rule];
  }

  /** Under layers with a rule on the field nobody can tell whose guard was there. */
  lemma GuardIsForgotten(side: Side, field: string, s1: string, s2: string, top: CompiledRoute)
    requires field in Fields(RulesOn(top, side))
    ensures Over(Guard(side, field, s1), top) == Over(Guard(side, field, s2), top)
  {
    var r1, r2 := FieldRule(field, [Validate("")], s1), FieldRule(field, [Validate("")], s2);
    assert Retained([r1], Fields(RulesOn(top, side))) == Retained([r1][1..], Fields(RulesOn(top, side))) == [];
    assert Retained([r2], Fields(RulesOn(top, side))) == Retained([r2][1..], Fields(RulesOn(top, side))) == [];
  }

  /** Layers can be collapsed into one. */
  lemma {:induction false} StackIsOver(base: CompiledRoute, first: CompiledRoute, rest: seq<CompiledRoute>)
    ensures Stack(Over(base, first), rest) == Over(base, Stack(first, rest))
    decreases |rest|
  {
    if rest != [] {
      OverAssociative(base, first, rest[0]);
      StackIsOver(base, Over(first, rest[0]), rest[1..]);
    }
  }

  lemma {:induction false} StackFields(base: CompiledRoute, layers: seq<CompiledRoute>, side: Side, i: nat)
    ensures Fields(RulesOn(base, side)) <= Fields(RulesOn(Stack(base, layers), side))
    ensures i < |layers| ==> Fields(RulesOn(layers[i], side)) <= Fields(RulesOn(Stack(base, layers), side))
    decreases |layers|
  {
    if layers != [] {
      OverRulesFields(RulesOn(base, side), RulesOn(layers[0], side));
      StackFields(Over(base, layers[0]), layers[1..], side, if i == 0 then 0 else i - 1);
    }
  }

  /** Two guards that differ only in name become one route under the layers. */
  lemma StackForgets(layers: seq<CompiledRoute>, side: Side) returns (field: string)
    requires !NoRulesOn(layers, side)
    ensures Stack(Guard(side, field, "a"), layers) == Stack(Guard(side, field, "b"), layers)
  {
    var i: nat :| i < |layers| && RulesOn(layers[i], side) != [];
    field := RulesOn(layers[i], side)[0].field;
    var first, rest := layers[0], layers[1..];
    var top := Stack(first, rest);
    StackFields(first, rest, side, if i == 0 then 0 else i - 1);
    assert i > 0 ==> layers[i] == rest[i - 1];
    StackIsOver(Guard(side, field, "a"), first, rest);
    StackIsOver(Guard(side, field, "b"), first, rest);
    GuardIsForgotten(side, field, "a", "b", top);
  }

  /** Under a stack of layers every denial and suspension of a pre phase stands, exactly when no layer
      has a rule on the arguments. */
  lemma PreVerdictsStandExactlyWhen(layers: seq<CompiledRoute>, st: State, w: World)
    ensures PreVerdictsStand(layers) <==> NoRulesOn(layers, Args)
  {
    if NoRulesOn(layers, Args) {
      forall base, st, w | !Forwards(PreRun(base, st, w).report)
        ensures PreRun(Stack(base, layers), st, w) == PreRun(base, st, w)
      {
        PreStands(base, layers, st, w);
      }
    } else {
      var field := StackForgets(layers, Args);
      var a, b, root := Guard(Args, field, "a"), Guard(Args, field, "b"), Holding(Segments(field));
      HoldingHas(Segments(field));
      GuardRejects(Args, field, "a", root, st.bag, Pre, ARGS_AT, w);
      GuardRejects(Args, field, "b", root, st.bag, Pre, ARGS_AT, w);
      var st1 := st.(payload := Payload(root, None));
      assert PreRun(a, st1, w).report.decision.ruleSource == "a" && PreRun(b, st1, w).report.decision.ruleSource == "b";
      assert PreRun(Stack(a, layers), st1, w) != PreRun(a, st1, w) ||
        PreRun(Stack(b, layers), st1, w) != PreRun(b, st1, w);
    }
  }

  /** And of a post phase, exactly when no layer has a rule on the result. */
  lemma PostVerdictsStandExactlyWhen(layers: seq<CompiledRoute>, st: State, w: World)
    ensures PostVerdictsStand(layers) <==> NoRulesOn(layers, Result)
  {
    if NoRulesOn(layers, Result) {
      forall base, st, w | !Forwards(PostRun(base, st, w).report)
        ensures PostRun(Stack(base, layers), st, w) == PostRun(base, st, w)
      {
        PostStands(base, layers, st, w);
      }
    } else {
      var field := StackForgets(layers, Result);
      var a, b, root := Guard(Result, field, "a"), Guard(Result, field, "b"), Holding(Segments(field));
      HoldingHas(Segments(field));
      GuardRejects(Result, field, "a", root, st.bag, Post, RESULT_AT, w);
      GuardRejects(Result, field, "b", root, st.bag, Post, RESULT_AT, w);
      var st1 := st.(payload := Payload(Null, Some(root)));
      assert PostRun(a, st1, w).report.decision.ruleSource == "a" &&
        PostRun(b, st1, w).report.decision.ruleSource == "b";
      assert PostRun(Stack(a, layers), st1, w) != PostRun(a, st1, w)
        || PostRun(Stack(b, layers), st1, w) != PostRun(b, st1, w);
    }
  }

  // ----- denials that are lifted -----

  function OnArgs(rules: seq<FieldRule>, policy: seq<Effect>): CompiledRoute
  {
    CompiledRoute("", rules, policy, [], [], map[], None)
  }

  lemma OneRule(rule: FieldRule, root: Json, bag: Bag, phase: Phase, pos: Pos, w: World)
    ensures var r, found := RunRules([rule], root, 0, Pipelining(bag, phase, pos, w)), Get(root, Segments(rule.field));
      && (rule.stages == [] ==> r.denied.None?)
      && (rule.stages == [Omit] && found.Some? ==> r.denied.None? && Get(r.root, Segments(rule.field)).None?)
      && (rule.stages == [Type(TInt)] && found == Some(Str("")) ==> r.denied.Some? && r.denied.value.Denied?)
  {
    var path := Segments(rule.field);
    if Get(root, path).Some? {
      FoundCanBeEdited(root, path, Null);
      GetAfterRemove(root, path, []);
      assert path + [] == path;
    }
    assert [rule][1..] == [];
  }

  lemma OverOne(base: CompiledRoute, top: CompiledRoute)
    requires base.args == [] || (|base.args| == |top.args| == 1 && base.args[0].field == top.args[0].field)
    ensures Stack(base, [top]) == Over(base, top) && Over(base, top).args == top.args
  {
    assert [top][1..] == [];
    if base.args != [] {
      assert base.args[0].field in Fields(top.args);
      assert Retained(base.args, Fields(top.args)) == Retained(base.args[1..], Fields(top.args)) == [];
    }
  }

  lemma IdleForwards(fields: FieldsRun, st: State, phase: Phase, w: World)
    requires fields.denied.None?
    ensures Forwards(PhaseOf(fields, st, [], POLICY_AT, phase, w).report)
  {
  }

  /** The base wants an integer; the layer's rule on the same field wants nothing. */
  lemma FieldDenialLifted(field: string, bag: Bag, w: World)
    ensures var base, top := OnArgs([FieldRule(field, [Type(TInt)], "")], []), OnArgs([FieldRule(field, [], "")], []);
      var st := State(bag, Payload(Holding(Segments(field)), None));
      PreRun(base, st, w).report.decision.Denied? && Forwards(PreRun(Stack(base, [top]), st, w).report)
  {
    var rule, free := FieldRule(field, [Type(TInt)], ""), FieldRule(field, [], "");
    var base, top, root := OnArgs([rule], []), OnArgs([free], []), Holding(Segments(field));
    HoldingHas(Segments(field));
    OneRule(rule, root, bag, Pre, ARGS_AT, w);
    OneRule(free, root, bag, Pre, ARGS_AT, w);
    OverOne(base, top);
    var st := State(bag, Payload(root, None));
    var fields := ArgsRun(Over(base, top), st, w);
    IdleForwards(fields, st.(payload := st.payload.(args := fields.root)), Pre, w);
  }

  /** The base's policy wants an integer; the layer's rule takes the field away before it looks. */
  lemma PolicyDenialLifted(field: string, bag: Bag, w: World)
    ensures var base := OnArgs([], [FieldOp(ARGS_PREFIX + field, [Type(TInt)])]);
      var top := OnArgs([FieldRule(field, [Omit], "")], []);
      var st := State(bag, Payload(Holding(Segments(field)), None));
      PreRun(base, st, w).report.decision.Denied? && Forwards(PreRun(Stack(base, [top]), st, w).report)
  {
    var rule, op := FieldRule(field, [Omit], ""), FieldOp(ARGS_PREFIX + field, [Type(TInt)]);
    var base, top, root := OnArgs([], [op]), OnArgs([rule], []), Holding(Segments(field));
    var st := State(bag, Payload(root, None));
    HoldingHas(Segments(field));
    OneRule(rule, root, bag, Pre, ARGS_AT, w);
    OverOne(base, top);
    var gone := ArgsRun(Over(base, top), st, w);
    assert st.(payload := st.payload.(args := root)) == st;
    WantsInteger(field, st, w);
    WantsInteger(field, st.(payload := st.payload.(args := gone.root)), w);
    assert [op] + [] == [op];
  }

  lemma WantsInteger(field: string, st: State, w: World)
    ensures var r := Steps([FieldOp(ARGS_PREFIX + field, [Type(TInt)])], st, POLICY_AT, In(Pre, w));
      && (Get(st.payload.args, Segments(field)).None? ==> r.outcome.Continue?)
      && (Get(st.payload.args, Segments(field)) == Some(Str("")) ==> r.outcome.Halt? && r.outcome.decision.Denied?)
  {
    var op, at, env := FieldOp(ARGS_PREFIX + field, [Type(TInt)]), POLICY_AT + [0], In(Pre, w);
    assert op.path[|ARGS_PREFIX|..] == field;
    var r := FieldOpRun(op.path, op.stages, "", st, at, Pre, w);
    assert Exec(op, "", st, at, env) == r;
    assert Walk([op][1..], "", r.st, POLICY_AT, 1, env) == Done(r.st);
  }
}
