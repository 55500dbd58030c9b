/** From configuration to effect trees (`parse_step`, `parse_effect_value` and the functions around
    them, `step_to_top_level_effect`, `step_to_effect` and `compile_apl_blocks` in `parser.rs`). */
module Compile {
  import opened Text
  import opened Json
  import opened Ir
  import opened Trees
  import opened Purity
  import opened Routes
  import opened Lines
  import opened Runs
  import opened World
  import Layers
  import FailClosed
  import RouteLaws

  /** A parsed YAML value; scalars other than strings matter only by not being strings. */
  datatype Yaml =
    | YStr(s: string)
    | YSeq(items: seq<Yaml>)
    | YMap(entries: seq<Entry>)
    | YScalar

  datatype Entry = Entry(key: Yaml, value: Yaml)

  datatype Step =
    | RuleStep(rule: Rule)
    | PdpStep(call: PdpCall, onAllow: seq<Step>, onDeny: seq<Step>)
    | LeafStep(effect: Effect)

  /** The surface syntax inside strings and leaf mappings. */
  datatype Syntax = Syntax(
    lines: Surface,
    restrict: Yaml -> Option<RestrictSpec>,
    delegate: (Yaml, string) -> Option<DelegateStep>,
    pdp: (string, Yaml) -> Option<PdpCall>)

  // ----- mappings -----

  function FindKey(entries: seq<Entry>, key: string): (i: Option<nat>)
    ensures i.Some? ==> i.value < |entries| && entries[i.value].key == YStr(key)
    ensures i.None? ==> forall j :: 0 <= j < |entries| ==> entries[j].key != YStr(key)
  {
    if entries == [] then None
    else if entries[0].key == YStr(key) then Some(0)
    else
      var i := FindKey(entries[1..], key);
      if i.None? then None else Some(i.value + 1)
  }

  predicate OnlyKeys(entries: seq<Entry>, allowed: set<string>)
  {
    forall i :: 0 <= i < |entries| ==> entries[i].key.YStr? && entries[i].key.s in allowed
  }

  const DIALECTS := {"cedar", "opa", "authzen", "nemo", "cel"}

  predicate IsKnownDialect(key: string)
  {
    var open := IndexOf(key, '(');
    Trim(if open.Some? then key[..open.value] else key) in DIALECTS
  }

  // ----- steps -----

  function ParseLine(s: string, src: string, o: Syntax): Option<Step>
  {
    match ReadLine(s, src, o.lines)
    case None => None
    case Some(line) => Some(
      match line
      case TaintLine(tag, scopes) => LeafStep(Taint(tag, scopes))
      case PluginLine(name) => LeafStep(Plugin(name))
      case DelegateLine(d) => LeafStep(Delegate(d))
      case ElicitLine(step) => LeafStep(Elicit(step))
      case RuleLine(condition, action) => RuleStep(Rule(condition, [EffectOf(action)], src)))
  }

  function ParseStep(v: Yaml, src: string, o: Syntax): Option<Step>
    decreases v, 2
  {
    match v
    case YStr(s) => ParseLine(s, src, o)
    case YMap(_) => ParseStepMap(v, src, o)
    case _ => None
  }

  function ParseStepMap(v: Yaml, src: string, o: Syntax): Option<Step>
    requires v.YMap?
    decreases v, 1
  {
    if FindKey(v.entries, "when").Some? && FindKey(v.entries, "do").Some? then ParseWhenDo(v, src, o)
    else if |v.entries| != 1 || !v.entries[0].key.YStr? then None
    else
      var key, body := v.entries[0].key.s, v.entries[0].value;
      var name := Trim(key);
      if body.YSeq? && name != "delegate" && name != "sequential" && name != "parallel" && !IsKnownDialect(name) then
        RuleOf(o.lines.condition(name), ParseEffects(body.items, src, o), src)
      else if name == "delegate" then
        var d := o.delegate(body, src);
        if d.None? then None else Some(LeafStep(Delegate(d.value)))
      else if name == "restrict" then
        var spec := o.restrict(body);
        if spec.None? then None else Some(LeafStep(Restrict(spec.value)))
      else if name == "sequential" then
        var e := ParseSequential(body, src, o);
        if e.None? then None else Some(RuleStep(Rule(Always, [e.value], src)))
      else if name == "parallel" then
        var e := ParseParallel(body, src, o);
        if e.None? then None else Some(RuleStep(Rule(Always, [e.value], src)))
      else ParsePdp(key, body, src, o)
  }

  /** A rule needs a predicate that parses and at least one effect. */
  function RuleOf(condition: Option<Expression>, effects: Option<seq<Effect>>, src: string): Option<Step>
  {
    if condition.None? || effects.None? || effects.value == [] then None
    else Some(RuleStep(Rule(condition.value, effects.value, src)))
  }

  function ParseWhenDo(v: Yaml, src: string, o: Syntax): Option<Step>
    requires v.YMap? && FindKey(v.entries, "when").Some? && FindKey(v.entries, "do").Some?
    decreases v, 0
  {
    var condition := v.entries[FindKey(v.entries, "when").value].value;
    var body := v.entries[FindKey(v.entries, "do").value].value;
    if !OnlyKeys(v.entries, {"when", "do", "id"}) || !condition.YStr? then None
    else RuleOf(o.lines.condition(condition.s), ParseDo(body, src, o), src)
  }

  function ParseDo(v: Yaml, src: string, o: Syntax): Option<seq<Effect>>
    decreases v, 4
  {
    match v
    case YSeq(items) => ParseEffects(items, src, o)
    case YScalar => None
    case _ =>
      var e := ParseEffect(v, src, o);
      if e.None? then None else Some([e.value])
  }

  function ParsePdp(key: string, body: Yaml, src: string, o: Syntax): Option<Step>
    decreases body, 1
  {
    if !body.YMap? then None
    else
      var call := o.pdp(key, body);
      var onDeny := ParseReactions(body, "on_deny", src, o);
      var onAllow := ParseReactions(body, "on_allow", src, o);
      if call.None? || onDeny.None? || onAllow.None? then None
      else Some(PdpStep(call.value, onAllow.value, onDeny.value))
  }

  function ParseReactions(body: Yaml, which: string, src: string, o: Syntax): Option<seq<Step>>
    requires body.YMap?
    decreases body, 0
  {
    var i := FindKey(body.entries, which);
    if i.None? then Some([])
    else
      var list := body.entries[i.value].value;
      if !list.YSeq? then None else ParseSteps(list.items, src + "." + which, 0, o)
  }

  function ParseSteps(items: seq<Yaml>, src: string, k: nat, o: Syntax): Option<seq<Step>>
    decreases items
  {
    if items == [] then Some([])
    else
      var first := ParseStep(items[0], src + "[" + ShowNat(k) + "]", o);
      var rest := ParseSteps(items[1..], src, k + 1, o);
      if first.None? || rest.None? then None else Some([first.value] + rest.value)
  }

  // ----- effects -----

  function ParseEffect(v: Yaml, src: string, o: Syntax): Option<Effect>
    decreases v, 3
  {
    match v
    case YStr(s) =>
      var tried := ReadDirect(s, o.lines);
      if tried.Found? then Some(DirectEffect(tried.value))
      else if tried.Broken? then None
      else
        var step := ParseLine(s, src, o);
        if step.None? then None else StepToEffect(step.value)
    case YMap(entries) =>
      var name := if |entries| == 1 && entries[0].key.YStr? then Trim(entries[0].key.s) else "";
      if name == "sequential" then ParseSequential(entries[0].value, src, o)
      else if name == "parallel" then ParseParallel(entries[0].value, src, o)
      else if name == "restrict" then
        var spec := o.restrict(entries[0].value);
        if spec.None? then None else Some(Restrict(spec.value))
      else
        var step := ParseStep(v, src, o);
        if step.None? then None else StepToEffect(step.value)
    case _ => None
  }

  function ParseEffects(items: seq<Yaml>, src: string, o: Syntax): Option<seq<Effect>>
    decreases items
  {
    if items == [] then Some([])
    else
      var first := ParseEffect(items[0], src, o);
      var rest := ParseEffects(items[1..], src, o);
      if first.None? || rest.None? then None else Some([first.value] + rest.value)
  }

  function ParseSequential(body: Yaml, src: string, o: Syntax): Option<Effect>
    decreases body
  {
    if !body.YSeq? || body.items == [] then None
    else
      var effects := ParseEffects(body.items, src, o);
      if effects.None? then None else Some(Sequential(effects.value))
  }

  /** The one place a parallel block is built, and it is validated there. */
  function ParseParallel(body: Yaml, src: string, o: Syntax): Option<Effect>
    decreases body
  {
    if !body.YSeq? || body.items == [] then None
    else
      var effects := ParseEffects(body.items, src, o);
      if effects.None? || Violation(Parallel(effects.value)).Some? then None else Some(Parallel(effects.value))
  }

  /** `step_to_effect`: no conditional rule and no PDP call inside a `do:`. */
  function StepToEffect(step: Step): Option<Effect>
  {
    match step
    case LeafStep(e) => Some(e)
    case RuleStep(rule) => if rule.condition.Always? && |rule.effects| == 1 then Some(rule.effects[0]) else None
    case PdpStep(_, _, _) => None
  }

  /** `step_to_top_level_effect`. */
  function TopLevel(step: Step): Effect
  {
    match step
    case LeafStep(e) => e
    case RuleStep(rule) => When(rule.condition, rule.effects, rule.source)
    case PdpStep(call, onAllow, onDeny) => Pdp(call, TopLevels(onAllow), TopLevels(onDeny))
  }

  function TopLevels(steps: seq<Step>): seq<Effect>
  {
    if steps == [] then [] else [TopLevel(steps[0])] + TopLevels(steps[1..])
  }

  // ----- everything compiled is validated -----

  predicate CleanStep(step: Step)
  {
    match step
    case LeafStep(e) => Clean(e)
    case RuleStep(rule) => AllClean(rule.effects)
    case PdpStep(_, onAllow, onDeny) => CleanSteps(onAllow) && CleanSteps(onDeny)
  }

  predicate CleanSteps(steps: seq<Step>)
  {
    steps == [] || (CleanStep(steps[0]) && CleanSteps(steps[1..]))
  }

  lemma LeafIsClean(e: Effect)
    requires IsLeaf(e)
    ensures Clean(e)
  {
  }

  lemma LineIsClean(s: string, src: string, o: Syntax)
    requires ParseLine(s, src, o).Some?
    ensures CleanStep(ParseLine(s, src, o).value)
  {
    match ParseLine(s, src, o).value
    case LeafStep(e) => LeafIsClean(e);
    case RuleStep(rule) => LeafIsClean(rule.effects[0]);
    case PdpStep(_, _, _) =>
  }

  lemma {:induction false} StepIsClean(v: Yaml, src: string, o: Syntax)
    requires ParseStep(v, src, o).Some?
    ensures CleanStep(ParseStep(v, src, o).value)
    decreases v, 2
  {
    if v.YStr? { LineIsClean(v.s, src, o); } else { StepMapIsClean(v, src, o); }
  }

  lemma {:induction false} StepMapIsClean(v: Yaml, src: string, o: Syntax)
    requires v.YMap? && ParseStepMap(v, src, o).Some?
    ensures CleanStep(ParseStepMap(v, src, o).value)
    decreases v, 1
  {
    if FindKey(v.entries, "when").Some? && FindKey(v.entries, "do").Some? {
      DoIsClean(v.entries[FindKey(v.entries, "do").value].value, src, o);
    } else {
      var key, body := v.entries[0].key.s, v.entries[0].value;
      var name := Trim(key);
      if body.YSeq? && name != "delegate" && name != "sequential" && name != "parallel" && !IsKnownDialect(name) {
        EffectsAreClean(body.items, src, o);
      } else if name == "delegate" {
      } else if name == "restrict" {
      } else if name == "sequential" {
        SequentialIsClean(body, src, o);
      } else if name == "parallel" {
      } else {
        ReactionsAreClean(body, "on_deny", src, o);
        ReactionsAreClean(body, "on_allow", src, o);
      }
    }
  }

  lemma {:induction false} DoIsClean(v: Yaml, src: string, o: Syntax)
    ensures ParseDo(v, src, o).Some? ==> AllClean(ParseDo(v, src, o).value)
    decreases v, 4
  {
    match v
    case YSeq(items) => EffectsAreClean(items, src, o);
    case YScalar =>
    case _ => if ParseEffect(v, src, o).Some? { EffectIsClean(v, src, o); }
  }

  lemma {:induction false} ReactionsAreClean(body: Yaml, which: string, src: string, o: Syntax)
    requires body.YMap?
    ensures ParseReactions(body, which, src, o).Some? ==> CleanSteps(ParseReactions(body, which, src, o).value)
    decreases body
  {
    var i := FindKey(body.entries, which);
    if i.Some? {
      var list := body.entries[i.value].value;
      if list.YSeq? { StepsAreClean(list.items, src + "." + which, 0, o); }
    }
  }

  lemma {:induction false} StepsAreClean(items: seq<Yaml>, src: string, k: nat, o: Syntax)
    ensures ParseSteps(items, src, k, o).Some? ==> CleanSteps(ParseSteps(items, src, k, o).value)
    decreases items
  {
    if items != [] && ParseSteps(items, src, k, o).Some? {
      StepIsClean(items[0], src + "[" + ShowNat(k) + "]", o);
      StepsAreClean(items[1..], src, k + 1, o);
    }
  }

  lemma {:induction false} EffectIsClean(v: Yaml, src: string, o: Syntax)
    requires ParseEffect(v, src, o).Some?
    ensures Clean(ParseEffect(v, src, o).value)
    decreases v, 3
  {
    if v.YStr? {
      if ReadDirect(v.s, o.lines).Found? {
        LeafIsClean(ParseEffect(v, src, o).value);
      } else {
        LineIsClean(v.s, src, o);
      }
    } else {
      var name := if |v.entries| == 1 && v.entries[0].key.YStr? then Trim(v.entries[0].key.s) else "";
      if name == "sequential" {
        SequentialIsClean(v.entries[0].value, src, o);
      } else if name == "parallel" {
      } else if name == "restrict" {
      } else {
        StepIsClean(v, src, o);
      }
    }
  }

  lemma {:induction false} EffectsAreClean(items: seq<Yaml>, src: string, o: Syntax)
    ensures ParseEffects(items, src, o).Some? ==> AllClean(ParseEffects(items, src, o).value)
    decreases items
  {
    if items != [] && ParseEffects(items, src, o).Some? {
      EffectIsClean(items[0], src, o);
      EffectsAreClean(items[1..], src, o);
    }
  }

  lemma {:induction false} SequentialIsClean(body: Yaml, src: string, o: Syntax)
    ensures ParseSequential(body, src, o).Some? ==> Clean(ParseSequential(body, src, o).value)
    decreases body
  {
    if ParseSequential(body, src, o).Some? {
      EffectsAreClean(body.items, src, o);
      CleanChildren(ParseSequential(body, src, o).value);
    }
  }

  lemma {:induction false} TopLevelIsClean(step: Step)
    requires CleanStep(step)
    ensures Clean(TopLevel(step))
    decreases step
  {
    match step
    case LeafStep(_) =>
    case RuleStep(rule) => CleanChildren(TopLevel(step));
    case PdpStep(_, onAllow, onDeny) =>
      TopLevelsAreClean(onAllow);
      TopLevelsAreClean(onDeny);
      ListViolationIndex(TopLevels(onAllow));
      ListViolationIndex(TopLevels(onDeny));
  }

  lemma {:induction false} TopLevelsAreClean(steps: seq<Step>)
    requires CleanSteps(steps)
    ensures AllClean(TopLevels(steps))
    decreases steps
  {
    if steps != [] {
      TopLevelIsClean(steps[0]);
      TopLevelsAreClean(steps[1..]);
    }
  }

  // ----- compile_apl_blocks -----

  /** One block; `legacy` says that a renamed key was found on it. */
  datatype Block = Block(
    legacy: bool,
    authPre: seq<Yaml>,
    authPost: seq<Yaml>,
    pre: seq<Yaml>,
    post: seq<Yaml>,
    args: map<string, string>,
    result: map<string, string>,
    plugins: map<string, Json>)

  /** A phase is declared in the nested form or in the flat one, not in both. */
  predicate OneForm(b: Block) { (b.authPre == [] || b.pre == []) && (b.authPost == [] || b.post == []) }

  predicate AllParse(fields: map<string, string>, o: Syntax)
  {
    forall f :: f in fields ==> o.lines.pipeline(fields[f]).Some?
  }

  predicate Compiles(b: Block, src: string, o: Syntax)
  {
    && !b.legacy && OneForm(b)
    && ParseSteps(b.authPre + b.pre, src + ".pre_invocation", 0, o).Some?
    && ParseSteps(b.authPost + b.post, src + ".post_invocation", 0, o).Some?
    && AllParse(b.args, o) && AllParse(b.result, o)
  }

  /** One rule for each declared field, running that field's chain. */
  ghost predicate RulesFor(rules: seq<FieldRule>, fields: map<string, string>, o: Syntax)
  {
    && (forall i, j :: 0 <= i < j < |rules| ==> rules[i].field != rules[j].field)
    && (forall i :: 0 <= i < |rules| ==>
          rules[i].field in fields && o.lines.pipeline(fields[rules[i].field]) == Some(rules[i].stages))
    && (forall f :: f in fields ==> exists i :: 0 <= i < |rules| && rules[i].field == f)
  }

  method CompileBlock(b: Block, src: string, o: Syntax) returns (r: Option<CompiledRoute>)
    ensures r.Some? <==> Compiles(b, src, o)
    ensures r.Some? ==> var route := r.value;
      && route.policy == TopLevels(ParseSteps(b.authPre + b.pre, src + ".pre_invocation", 0, o).value)
      && route.postPolicy == TopLevels(ParseSteps(b.authPost + b.post, src + ".post_invocation", 0, o).value)
      && RulesFor(route.args, b.args, o) && RulesFor(route.result, b.result, o)
      && AllClean(route.policy) && AllClean(route.postPolicy)
  {
    if b.legacy { return None; }
    if b.authPre != [] && b.pre != [] { return None; }
    if b.authPost != [] && b.post != [] { return None; }
    var policy := CompileSteps(b.authPre + b.pre, src + ".pre_invocation", o);
    if policy.None? { return None; }
    var postPolicy := CompileSteps(b.authPost + b.post, src + ".post_invocation", o);
    if postPolicy.None? { return None; }
    var args := CompileFields(b.args, src + ".args.", o);
    if args.None? { return None; }
    var result := CompileFields(b.result, src + ".result.", o);
    if result.None? { return None; }
    return Some(CompiledRoute(src, args.value, policy.value, result.value, postPolicy.value, b.plugins, None));
  }

  method CompileSteps(items: seq<Yaml>, src: string, o: Syntax) returns (effects: Option<seq<Effect>>)
    ensures effects.Some? <==> ParseSteps(items, src, 0, o).Some?
    ensures effects.Some? ==> effects.value == TopLevels(ParseSteps(items, src, 0, o).value) && AllClean(effects.value)
  {
    var out := [];
    ghost var steps: seq<Step> := [];
    assert items[0..] == items;
    PrependNone(ParseSteps(items, src, 0, o));
    for i := 0 to |items|
      invariant out == TopLevels(steps)
      invariant ParseSteps(items, src, 0, o) == Prepended(steps, ParseSteps(items[i..], src, i, o))
    {
      assert items[i..][0] == items[i] && items[i..][1..] == items[i + 1..];
      var step := ParseStep(items[i], src + "[" + ShowNat(i) + "]", o);
      if step.None? { return None; }
      PrependMore(steps, step.value, ParseSteps(items[i + 1..], src, i + 1, o));
      TopLevelsPush(steps, step.value);
      steps, out := steps + [step.value], out + [TopLevel(step.value)];
    }
    assert steps + [] == steps;
    assert ParseSteps(items, src, 0, o) == Prepended(steps, Some([])) == Some(steps);
    StepsAreClean(items, src, 0, o);
    TopLevelsAreClean(ParseSteps(items, src, 0, o).value);
    return Some(out);
  }

  ghost function Prepended(steps: seq<Step>, rest: Option<seq<Step>>): Option<seq<Step>>
  {
    if rest.None? then None else Some(steps + rest.value)
  }

  lemma PrependNone(rest: Option<seq<Step>>)
    ensures Prepended([], rest) == rest
  {
    if rest.Some? { assert [] + rest.value == rest.value; }
  }

  lemma PrependMore(steps: seq<Step>, step: Step, rest: Option<seq<Step>>)
    ensures Prepended(steps, Prepended([step], rest)) == Prepended(steps + [step], rest)
  {
    if rest.Some? { assert steps + ([step] + rest.value) == steps + [step] + rest.value; }
  }

  lemma {:induction false} TopLevelsPush(steps: seq<Step>, step: Step)
    ensures TopLevels(steps + [step]) == TopLevels(steps) + [TopLevel(step)]
  {
    if steps == [] {
      assert steps + [step] == [step] && [step][1..] == [];
    } else {
      assert (steps + [step])[1..] == steps[1..] + [step];
      TopLevelsPush(steps[1..], step);
    }
  }

  /** Fields in any order, as a hash map gives them. */
  method CompileFields(fields: map<string, string>, src: string, o: Syntax) returns (rules: Option<seq<FieldRule>>)
    ensures rules.Some? <==> AllParse(fields, o)
    ensures rules.Some? ==> RulesFor(rules.value, fields, o)
  {
    var out: seq<FieldRule> := [];
    var done: set<string> := {};
    while done != fields.Keys
      invariant done <= fields.Keys
      invariant forall i :: 0 <= i < |out| ==>
        out[i].field in done && o.lines.pipeline(fields[out[i].field]) == Some(out[i].stages)
      invariant forall i, j :: 0 <= i < j < |out| ==> out[i].field != out[j].field
      invariant forall f :: f in done ==> exists i :: 0 <= i < |out| && out[i].field == f
      invariant forall f :: f in done ==> o.lines.pipeline(fields[f]).Some?
      decreases fields.Keys - done
    {
      var f :| f in fields.Keys && f !in done;
      var stages := o.lines.pipeline(fields[f]);
      if stages.None? { return None; }
      ghost var before := out;
      out := out + [FieldRule(f, stages.value, src + f)];
      forall g | g in done + {f} ensures exists i :: 0 <= i < |out| && out[i].field == g {
        if g in done {
          var i :| 0 <= i < |before| && before[i].field == g;
          assert out[i].field == g;
        } else {
          assert out[|before|].field == g;
        }
      }
      done := done + {f};
    }
    return Some(out);
  }

  // ----- from configuration to verdict -----

  predicate CleanRoute(route: CompiledRoute) { AllClean(route.policy) && AllClean(route.postPolicy) }

  /** Layers of validated blocks are validated. */
  lemma {:induction false} StackIsClean(base: CompiledRoute, layers: seq<CompiledRoute>)
    requires CleanRoute(base) && forall i :: 0 <= i < |layers| ==> CleanRoute(layers[i])
    ensures CleanRoute(Layers.Stack(base, layers))
    decreases |layers|
  {
    if layers != [] {
      var next := Layers.Over(base, layers[0]);
      assert CleanRoute(layers[0]) && CleanRoute(next);
      StackIsClean(next, layers[1..]);
    }
  }

  /** A request that a stack of compiled blocks lets through met no denial, no error and no open
      question that some step did not say to continue on. */
  lemma CompiledStackFailsClosed(base: CompiledRoute, layers: seq<CompiledRoute>, st: State, w: World)
    requires CleanRoute(base) && forall i :: 0 <= i < |layers| ==> CleanRoute(layers[i])
    ensures var r := RouteRun(Layers.Stack(base, layers), st, w); Forwards(r.report) ==> FailClosed.AllBenign(r.log)
  {
    StackIsClean(base, layers);
    RouteLaws.RouteFailsClosed(Layers.Stack(base, layers), st, w);
  }
}
