/** Restrictions from the effect that fired to the router. */
module Restricting {
  import opened Text
  import opened Json
  import opened Ir
  import opened Attributes
  import opened World
  import opened Pipelines
  import opened Constraints
  import opened Runs
  import opened Leaves
  import opened Trees
  import opened Engine
  import opened Purity
  import opened FailClosed
  import opened Ledgers
  import opened FieldRules
  import opened Routes
  import opened RouteLaws
  import opened Folding

  /** A fired `restrict` resolved, and unless it asks nothing its constraint is kept. */
  predicate RestrictKept(ev: Event, constraints: seq<CandidateConstraint>, host: Host)
  {
    ev.Restricted? ==>
      var r := Resolve(ev.spec, ev.bag, host); r.Ok? && (IsEmpty(r.value) || r.value in constraints)
  }

  function Kept(host: Host): Account { (ev, constraints) => RestrictKept(ev, constraints, host) }

  lemma KeptStays(ev: Event, c1: seq<CandidateConstraint>, c2: seq<CandidateConstraint>, host: Host)
    requires RestrictKept(ev, c1, host)
    ensures RestrictKept(ev, c1 + c2, host) && RestrictKept(ev, c2 + c1, host)
  {
  }

  lemma KeptIsCumulative(host: Host)
    ensures Cumulative(Kept(host))
  {
    var ok := Kept(host);
    forall ev, c1, c2 | ok(ev, c1) ensures ok(ev, c1 + c2) && ok(ev, c2 + c1) {
      KeptStays(ev, c1, c2, host);
    }
    forall ev: Event, c | ev.PdpCalled? ensures ok(ev, c) { assert RestrictKept(ev, c, host); }
  }

  // ----- single-step effects -----

  predicate NoneRestricts(log: seq<Event>) { forall i :: 0 <= i < |log| ==> !log[i].Restricted? }

  lemma NothingToKeep(log: seq<Event>, constraints: seq<CandidateConstraint>, host: Host)
    requires NoneRestricts(log)
    ensures AllOk(log, constraints, Kept(host))
  {
    forall i | 0 <= i < |log| ensures Kept(host)(log[i], constraints) {
      assert RestrictKept(log[i], constraints, host);
    }
  }

  lemma CheckRestrictsNot(step: ElicitStep, id: string, st: State, pos: Pos, phase: Phase, w: World)
    ensures NoneRestricts(CheckRun(step, id, st, pos, phase, w).log)
  {
    assert NoneRestricts(ValidateRun(step, id, st, pos, phase, w).log);
  }

  lemma ElicitRestrictsNot(step: ElicitStep, st: State, pos: Pos, phase: Phase, w: World)
    ensures NoneRestricts(ElicitRun(step, st, pos, phase, w).log)
  {
    var from, id := ResolveFrom(step, st.bag), GetString(st.bag, ELICIT_ID);
    if from.None? { return; }
    if id.Some? { CheckRestrictsNot(step, id.value, st, pos, phase, w); return; }
    var answer := w.dispatch(pos, step, from.value);
    if answer.Dispatched? {
      var bag := OpenedBag(st.bag, step, answer.id, answer.approver, answer.intentId, answer.expiresAt);
      CheckRestrictsNot(step, answer.id, st.(bag := bag), pos, phase, w);
    }
  }

  lemma {:induction false} FlowRestrictsNot(stages: seq<Stage>, base: nat, v: Json, changed: bool, c: Site)
    ensures NoneRestricts(Flow(stages, base, v, changed, At(c)).log)
    decreases |stages|
  {
    if stages != [] {
      var s := RunStage(stages[0], v, c, base);
      assert NoneRestricts(s.log);
      if s.Go? { FlowRestrictsNot(stages[1..], base + 1, s.value, changed || s.changed, c); }
    }
  }

  lemma EditRestrictsNot(root: Json, field: string, stages: seq<Stage>, site: Site)
    ensures NoneRestricts(EditField(root, field, stages, site).log)
  {
    var current := Get(root, Segments(field));
    if current.Some? { FlowRestrictsNot(stages, 0, current.value, false, site); }
  }

  lemma FieldOpRestrictsNot(path: string, stages: seq<Stage>, src: string, st: State, pos: Pos, phase: Phase, w: World)
    ensures NoneRestricts(FieldOpRun(path, stages, src, st, pos, phase, w).log)
  {
    var args, result := StripPrefix(path, ARGS_PREFIX), StripPrefix(path, RESULT_PREFIX);
    if args.Some? {
      EditRestrictsNot(st.payload.args, args.value, stages, Site(st.bag, args.value, phase, pos, w));
    } else if result.Some? && st.payload.result.Some? {
      EditRestrictsNot(st.payload.result.value, result.value, stages, Site(st.bag, result.value, phase, pos, w));
    }
  }

  lemma RestrictKeeps(spec: RestrictSpec, src: string, st: State, pos: Pos, phase: Phase, w: World)
    ensures Balanced(RestrictRun(spec, src, st, pos, phase, w), Kept(w.host))
  {
    var r := RestrictRun(spec, src, st, pos, phase, w);
    if !r.outcome.Halt? {
      var c := Resolve(spec, st.bag, w.host).value;
      if !IsEmpty(c) { assert r.constraints[0] == c; }
      assert RestrictKept(r.log[0], r.constraints, w.host);
    }
  }

  lemma LeafKeeps(e: Effect, src: string, st: State, pos: Pos, phase: Phase, w: World)
    requires IsLeaf(e)
    ensures Balanced(LeafRun(e, src, st, pos, phase, w), Kept(w.host))
  {
    var r := LeafRun(e, src, st, pos, phase, w);
    if e.Restrict? {
      RestrictKeeps(e.spec, src, st, pos, phase, w);
      return;
    }
    if e.Elicit? {
      ElicitRestrictsNot(e.step, st, pos, phase, w);
    } else if e.FieldOp? {
      FieldOpRestrictsNot(e.path, e.stages, src, st, pos, phase, w);
    }
    assert NoneRestricts(r.log);
    NothingToKeep(r.log, r.constraints, w.host);
  }

  /** A phase that is not denied keeps what every `restrict` in it asked, parallel branches included. */
  lemma StepsKeep(es: seq<Effect>, st: State, pos: Pos, phase: Phase, w: World)
    ensures Balanced(Steps(es, st, pos, In(phase, w)), Kept(w.host))
  {
    KeptIsCumulative(w.host);
    forall e, src, st, pos | IsLeaf(e) ensures Balanced(In(phase, w).leaf(e, src, st, pos), Kept(w.host)) {
      LeafKeeps(e, src, st, pos, phase, w);
    }
    WalkBalances(es, "", st, pos, 0, In(phase, w), Kept(w.host));
  }

  // ----- whole routes -----

  lemma {:induction false} RulesRestrictNot(rules: seq<FieldRule>, root: Json, k: nat, bag: Bag, phase: Phase, pos: Pos,
                                            w: World)
    ensures NoneRestricts(RunRules(rules, root, k, Pipelining(bag, phase, pos, w)).log)
    decreases |rules|
  {
    if rules != [] {
      var rule, pipe := rules[0], Pipelining(bag, phase, pos, w);
      EditRestrictsNot(root, rule.field, rule.stages, Site(bag, rule.field, phase, pos + [k], w));
      PipeliningEdits(rule, root, k, bag, phase, pos, w);
      RulesRestrictNot(rules[1..], Edited(rule, root, k, pipe).root, k + 1, bag, phase, pos, w);
    }
  }

  ghost predicate KeptIn(r: PhaseRun, host: Host)
  {
    r.report.decision.Allowed? ==> AllOk(r.log, r.report.constraints, Kept(host))
  }

  lemma PhaseKeeps(fields: FieldsRun, st: State, effects: seq<Effect>, pos: Pos, phase: Phase, w: World)
    requires NoneRestricts(fields.log) && AllClean(effects)
    requires fields.denied.Some? ==> fields.denied.value.Denied?
    ensures KeptIn(PhaseOf(fields, st, effects, pos, phase, w), w.host)
  {
    KeptIsCumulative(w.host);
    StepsKeep(effects, st, pos, phase, w);
    EngineTrusted(phase, w);
    CleanListIsCareful(effects, "", st, pos, 0, In(phase, w));
    var r := Steps(effects, st, pos, In(phase, w));
    if fields.denied.None? && !r.outcome.Halt? {
      NothingToKeep(fields.log, [], w.host);
      Together(fields.log, [], r.log, r.constraints, Kept(w.host));
      assert [] + r.constraints == r.constraints;
    }
  }

  lemma PreKeeps(route: CompiledRoute, st: State, w: World)
    requires AllClean(route.policy)
    ensures KeptIn(PreRun(route, st, w), w.host)
  {
    var fields := ArgsRun(route, st, w);
    RulesRestrictNot(route.args, st.payload.args, 0, st.bag, Pre, ARGS_AT, w);
    RulesCareful(route.args, st.payload.args, 0, st.bag, Pre, ARGS_AT, w);
    PhaseKeeps(fields, st.(payload := st.payload.(args := fields.root)), route.policy, POLICY_AT, Pre, w);
  }

  lemma PostKeeps(route: CompiledRoute, st: State, w: World)
    requires AllClean(route.postPolicy)
    ensures KeptIn(PostRun(route, st, w), w.host)
  {
    if st.payload.result.None? {
      PhaseKeeps(NO_FIELDS, st, route.postPolicy, POST_POLICY_AT, Post, w);
    } else {
      var fields := ResultRun(route, st, w);
      RulesRestrictNot(route.result, st.payload.result.value, 0, st.bag, Post, RESULT_AT, w);
      RulesCareful(route.result, st.payload.result.value, 0, st.bag, Post, RESULT_AT, w);
      PhaseKeeps(fields, st.(payload := st.payload.(result := Some(fields.root))), route.postPolicy, POST_POLICY_AT,
                 Post, w);
    }
  }

  lemma RouteKeeps(route: CompiledRoute, st: State, w: World)
    requires AllClean(route.policy) && AllClean(route.postPolicy)
    ensures KeptIn(RouteRun(route, st, w), w.host)
  {
    KeptIsCumulative(w.host);
    var pre := PreRun(route, st, w);
    PreKeeps(route, st, w);
    PostKeeps(route, pre.st, w);
    var post := PostRun(route, pre.st, w);
    if Forwards(pre.report) && post.report.decision.Allowed? {
      Together(pre.log, pre.report.constraints, post.log, post.report.constraints, Kept(w.host));
    }
  }

  // ----- end to end -----

  lemma KeptIsMet(cs: seq<CandidateConstraint>, c: CandidateConstraint, b: Backend, router: Router)
    requires IsEmpty(c) || c in cs
    ensures Compatible(cs) && Accepts(Folded(cs), b, router) ==> Meets(c, b, router)
    ensures Unrestricting(Folded(cs)) ==> IsEmpty(c)
    ensures !Compatible(cs) ==> !MeetsAll(cs, b, router)
  {
    NothingToEmit(cs);
    if !Compatible(cs) {
      ConflictIsHopeless(cs, b, router);
    } else if Accepts(Folded(cs), b, router) {
      FoldedIsSafe(cs, b, router);
      if !IsEmpty(c) {
        var j :| 0 <= j < |cs| && cs[j] == c;
        assert Meets(cs[j], b, router);
      }
    }
  }

  /** Whatever `fold` makes of the constraints of a request that was not denied: a backend accepted
      by it meets every `restrict` that fired; emitting nothing means none of them asked anything;
      and a conflict means no backend could meet them. */
  lemma RestrictsReachTheRouter(route: CompiledRoute, st: State, w: World, b: Backend, router: Router, i: nat)
    requires AllClean(route.policy) && AllClean(route.postPolicy)
    requires var r := RouteRun(route, st, w); r.report.decision.Allowed? && i < |r.log| && r.log[i].Restricted?
    ensures var r := RouteRun(route, st, w);
      var cs, c := r.report.constraints, Resolve(r.log[i].spec, r.log[i].bag, w.host);
      && c.Ok?
      && (Compatible(cs) && Accepts(Folded(cs), b, router) ==> Meets(c.value, b, router))
      && (Unrestricting(Folded(cs)) ==> IsEmpty(c.value))
      && (!Compatible(cs) ==> !MeetsAll(cs, b, router))
  {
    var r := RouteRun(route, st, w);
    RouteKeeps(route, st, w);
    assert Kept(w.host)(r.log[i], r.report.constraints);
    KeptIsMet(r.report.constraints, Resolve(r.log[i].spec, r.log[i].bag, w.host).value, b, router);
  }
}
