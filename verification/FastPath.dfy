/** The synchronous fast path (`evaluate_rules` in `evaluator.rs`) against the full evaluator. */
module FastPath {
  import opened Text
  import opened Ir
  import opened Attributes
  import opened World
  import opened Constraints
  import opened Runs
  import opened Trees
  import opened Engine

  /** An effect of a rule whose condition holds. */
  datatype Firing = Firing(effect: Effect, source: string)

  function FiredBy(effects: seq<Effect>, source: string): seq<Firing>
  {
    if effects == [] then [] else [Firing(effects[0], source)] + FiredBy(effects[1..], source)
  }

  /** All effects of all rules that hold on `bag`, in order. */
  function Fired(rules: seq<Rule>, bag: Bag, host: Host): seq<Firing>
  {
    if rules == [] then []
    else if Eval(rules[0].condition, bag, host) then
      FiredBy(rules[0].effects, rules[0].source) + Fired(rules[1..], bag, host)
    else Fired(rules[1..], bag, host)
  }

  function DenialOf(f: Firing): Decision
    requires f.effect.Deny?
  {
    Denied(if f.effect.reason.Some? then Some(Said(f.effect.reason.value)) else None,
           if f.effect.code.Some? then f.effect.code.value else f.source)
  }

  /** The first `deny` that fires decides. */
  function FirstDenial(fs: seq<Firing>): Decision
  {
    if fs == [] then Allowed else if fs[0].effect.Deny? then DenialOf(fs[0]) else FirstDenial(fs[1..])
  }

  /** `evaluate_rules`. */
  method EvaluateRules(rules: seq<Rule>, bag: Bag, host: Host) returns (d: Decision)
    ensures d == FirstDenial(Fired(rules, bag, host))
  {
    assert rules[0..] == rules;
    for i := 0 to |rules|
      invariant FirstDenial(Fired(rules, bag, host)) == FirstDenial(Fired(rules[i..], bag, host))
    {
      assert rules[i..][1..] == rules[i + 1..];
      if !Eval(rules[i].condition, bag, host) { continue; }
      var effects, source := rules[i].effects, rules[i].source;
      ghost var later := Fired(rules[i + 1..], bag, host);
      assert effects[0..] == effects;
      for j := 0 to |effects|
        invariant FirstDenial(Fired(rules, bag, host)) == FirstDenial(FiredBy(effects[j..], source) + later)
      {
        assert effects[j..][1..] == effects[j + 1..];
        DenialStep(effects[j], effects[j + 1..], source, later);
        match effects[j] {
          case Deny(reason, code) =>
            return Denied(if reason.Some? then Some(Said(reason.value)) else None,
                          if code.Some? then code.value else source);
          case _ =>
        }
      }
      assert FiredBy(effects[|effects|..], source) + later == later;
    }
    return Allowed;
  }

  lemma DenialStep(e: Effect, rest: seq<Effect>, source: string, later: seq<Firing>)
    ensures var all := FiredBy([e] + rest, source) + later;
      FirstDenial(all) ==
        if e.Deny? then DenialOf(Firing(e, source)) else FirstDenial(FiredBy(rest, source) + later)
  {
    assert ([e] + rest)[1..] == rest;
    var all := FiredBy([e] + rest, source) + later;
    assert all[0] == Firing(e, source) && all[1..] == FiredBy(rest, source) + later;
  }

  // ----- the full evaluator on the same rules -----

  /** `From<Rule> for Effect`. */
  function AsEffects(rules: seq<Rule>): seq<Effect>
  {
    seq(|rules|, i requires 0 <= i < |rules| => When(rules[i].condition, rules[i].effects, rules[i].source))
  }

  predicate Simple(e: Effect) { e.Allow? || e.Deny? || e.Taint? || e.Restrict? }

  predicate AllSimple(es: seq<Effect>) { forall i :: 0 <= i < |es| ==> Simple(es[i]) }

  predicate SimpleRules(rules: seq<Rule>) { forall i :: 0 <= i < |rules| ==> AllSimple(rules[i].effects) }

  /** How the full evaluator stops at a firing, if it does. */
  function StopsAt(f: Firing, bag: Bag, host: Host): Option<Decision>
  {
    match f.effect
    case Deny(_, _) => Some(DenialOf(f))
    case Restrict(spec) =>
      var r := Resolve(spec, bag, host);
      if r.Err? then Some(Denied(Some(UnresolvedDenyList(r.error)), f.source)) else None
    case _ => None
  }

  function FirstStop(fs: seq<Firing>, bag: Bag, host: Host): Option<Decision>
  {
    if fs == [] then None
    else if StopsAt(fs[0], bag, host).Some? then StopsAt(fs[0], bag, host) else FirstStop(fs[1..], bag, host)
  }

  /** The run changes no state and halts exactly as `stop` says. */
  predicate StopsWith(r: Run, stop: Option<Decision>, st: State)
  {
    r.st == st && r.outcome == if stop.Some? then Halt(stop.value) else Outcome.Continue
  }

  ghost predicate PlainLeaves(env: Env)
  {
    forall e, src, st, pos :: Simple(e) ==>
      StopsWith(env.leaf(e, src, st, pos), StopsAt(Firing(e, src), st.bag, env.w.host), st)
  }

  lemma EngineIsPlain(phase: Phase, w: World)
    ensures PlainLeaves(In(phase, w))
  {
  }

  lemma {:induction false} StopConcat(a: seq<Firing>, b: seq<Firing>, bag: Bag, host: Host)
    ensures FirstStop(a + b, bag, host) ==
      if FirstStop(a, bag, host).Some? then FirstStop(a, bag, host) else FirstStop(b, bag, host)
  {
    if a == [] {
      assert a + b == b;
    } else {
      assert (a + b)[1..] == a[1..] + b;
      StopConcat(a[1..], b, bag, host);
    }
  }

  lemma {:induction false} BodyStops(es: seq<Effect>, src: string, st: State, pos: Pos, k: nat, env: Env)
    requires AllSimple(es) && PlainLeaves(env)
    ensures StopsWith(Walk(es, src, st, pos, k, env), FirstStop(FiredBy(es, src), st.bag, env.w.host), st)
    decreases |es|
  {
    if es != [] {
      BodyStops(es[1..], src, st, pos, k + 1, env);
      assert FiredBy(es, src)[1..] == FiredBy(es[1..], src);
      assert Simple(es[0]);
    }
  }

  ghost predicate HoldsAsIs(env: Env) { forall e, bag :: env.holds(e, bag) == Eval(e, bag, env.w.host) }

  /** The full evaluator stops at the first firing that stops it. */
  lemma {:induction false} RulesStop(rules: seq<Rule>, st: State, pos: Pos, k: nat, env: Env)
    requires SimpleRules(rules) && PlainLeaves(env) && HoldsAsIs(env)
    ensures StopsWith(Walk(AsEffects(rules), "", st, pos, k, env),
                      FirstStop(Fired(rules, st.bag, env.w.host), st.bag, env.w.host), st)
    decreases |rules|
  {
    if rules != [] {
      var first := When(rules[0].condition, rules[0].effects, rules[0].source);
      assert AsEffects(rules)[0] == first && AsEffects(rules)[1..] == AsEffects(rules[1..]);
      BodyStops(rules[0].effects, rules[0].source, st, pos + [k], 0, env);
      RulesStop(rules[1..], st, pos, k + 1, env);
      StopConcat(FiredBy(rules[0].effects, rules[0].source), Fired(rules[1..], st.bag, env.w.host), st.bag, env.w.host);
    }
  }

  // ----- when the two agree -----

  /** A deny-list reference that does not resolve comes up before any `deny`. */
  predicate UnresolvedFirst(fs: seq<Firing>, bag: Bag, host: Host)
  {
    fs != [] && !fs[0].effect.Deny? &&
    ((fs[0].effect.Restrict? && Resolve(fs[0].effect.spec, bag, host).Err?) || UnresolvedFirst(fs[1..], bag, host))
  }

  lemma {:induction false} StopIsDenial(fs: seq<Firing>, bag: Bag, host: Host)
    ensures var stop := FirstStop(fs, bag, host);
      (if stop.Some? then stop.value else Allowed) == FirstDenial(fs) <==> !UnresolvedFirst(fs, bag, host)
    ensures UnresolvedFirst(fs, bag, host) ==> FirstStop(fs, bag, host).Some? && FirstStop(fs, bag, host).value.Denied?
  {
    if fs != [] {
      StopIsDenial(fs[1..], bag, host);
      if UnresolvedFirst(fs, bag, host) { FirstDenialIsSaid(fs); StopIsUnresolved(fs, bag, host); }
    }
  }

  lemma {:induction false} FirstDenialIsSaid(fs: seq<Firing>)
    ensures FirstDenial(fs).Denied? ==> FirstDenial(fs).reason.None? || FirstDenial(fs).reason.value.Said?
  {
    if fs != [] { FirstDenialIsSaid(fs[1..]); }
  }

  lemma {:induction false} StopIsUnresolved(fs: seq<Firing>, bag: Bag, host: Host)
    requires UnresolvedFirst(fs, bag, host)
    ensures var stop := FirstStop(fs, bag, host);
      stop.Some? && stop.value.Denied? && stop.value.reason.Some? && stop.value.reason.value.UnresolvedDenyList?
  {
    if !(fs[0].effect.Restrict? && Resolve(fs[0].effect.spec, bag, host).Err?) { StopIsUnresolved(fs[1..], bag, host); }
  }

  /** Same decision, reason and source, unless an unresolvable deny-list comes up first; there the
      full evaluator denies and the fast path does not look. */
  lemma FastPathRefines(rules: seq<Rule>, st: State, pos: Pos, phase: Phase, w: World)
    requires SimpleRules(rules)
    ensures var full := Report(Steps(AsEffects(rules), st, pos, In(phase, w)));
      var fired := Fired(rules, st.bag, w.host);
      && full.pending.None?
      && (full.decision == FirstDenial(fired) <==> !UnresolvedFirst(fired, st.bag, w.host))
      && (UnresolvedFirst(fired, st.bag, w.host) ==> full.decision.Denied?)
  {
    EngineIsPlain(phase, w);
    RulesStop(rules, st, pos, 0, In(phase, w));
    StopIsDenial(Fired(rules, st.bag, w.host), st.bag, w.host);
  }

  // ----- deny-lists without references -----

  predicate NoReference(e: Effect)
  {
    e.Restrict? ==> e.spec.denyModels.None? || e.spec.denyModels.value.Literals?
  }

  predicate NoReferences(rules: seq<Rule>)
  {
    forall i, j :: 0 <= i < |rules| && 0 <= j < |rules[i].effects| ==> NoReference(rules[i].effects[j])
  }

  predicate NoneRefers(fs: seq<Firing>) { forall i :: 0 <= i < |fs| ==> NoReference(fs[i].effect) }

  lemma {:induction false} FiredByRefersNot(es: seq<Effect>, source: string)
    requires forall j :: 0 <= j < |es| ==> NoReference(es[j])
    ensures NoneRefers(FiredBy(es, source))
  {
    if es != [] { FiredByRefersNot(es[1..], source); }
  }

  lemma {:induction false} FiredRefersNot(rules: seq<Rule>, bag: Bag, host: Host)
    requires NoReferences(rules)
    ensures NoneRefers(Fired(rules, bag, host))
  {
    if rules != [] {
      FiredByRefersNot(rules[0].effects, rules[0].source);
      FiredRefersNot(rules[1..], bag, host);
    }
  }

  lemma {:induction false} AllResolve(fs: seq<Firing>, bag: Bag, host: Host)
    requires NoneRefers(fs)
    ensures !UnresolvedFirst(fs, bag, host)
  {
    if fs != [] {
      assert NoReference(fs[0].effect);
      AllResolve(fs[1..], bag, host);
    }
  }

  /** Rules whose deny-lists are written out can always take the fast path. */
  lemma LiteralDenyListsAgree(rules: seq<Rule>, st: State, pos: Pos, phase: Phase, w: World)
    requires SimpleRules(rules) && NoReferences(rules)
    ensures Report(Steps(AsEffects(rules), st, pos, In(phase, w))).decision == FirstDenial(Fired(rules, st.bag, w.host))
  {
    FastPathRefines(rules, st, pos, phase, w);
    FiredRefersNot(rules, st.bag, w.host);
    AllResolve(Fired(rules, st.bag, w.host), st.bag, w.host);
  }
}
