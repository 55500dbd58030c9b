/** The one-question discipline over both phases of a route, which share a bag (`evaluate_route` in
    `route.rs`), and what it means for a list with more than one approver. */
module RouteQuestions {
  import opened Text
  import opened Json
  import opened Ir
  import opened World
  import opened Pipelines
  import opened Runs
  import opened Leaves
  import opened Trees
  import opened Engine
  import opened Purity
  import opened FieldRules
  import opened Routes
  import opened Elicitation
  import Approvals

  predicate PhaseAsksOnce(r: PhaseRun, st: State) { OneQuestion(IdOf(st), IdOf(r.st), r.log) }

  lemma {:induction false} RulesAreSilent(rules: seq<FieldRule>, root: Json, k: nat, bag: Bag, phase: Phase, pos: Pos,
                                          w: World)
    ensures NoElicit(RunRules(rules, root, k, Pipelining(bag, phase, pos, w)).log)
    decreases |rules|
  {
    if rules != [] {
      var rule, pipe := rules[0], Pipelining(bag, phase, pos, w);
      EditIsSilent(root, rule.field, rule.stages, Site(bag, rule.field, phase, pos + [k], w));
      PipeliningEdits(rule, root, k, bag, phase, pos, w);
      RulesAreSilent(rules[1..], Edited(rule, root, k, pipe).root, k + 1, bag, phase, pos, w);
    }
  }

  lemma PhaseOfAsksOnce(fields: FieldsRun, st: State, effects: seq<Effect>, pos: Pos, phase: Phase, w: World)
    requires NoElicit(fields.log) && AllClean(effects)
    ensures PhaseAsksOnce(PhaseOf(fields, st, effects, pos, phase, w), st)
  {
    SilentIsOneQuestion(IdOf(st), fields.log);
    if fields.denied.None? {
      EngineDisciplined(phase, w);
      CleanListAsksOnce(effects, "", st, pos, 0, In(phase, w));
      var r := Steps(effects, st, pos, In(phase, w));
      OneQuestionComposes(IdOf(st), IdOf(st), IdOf(r.st), fields.log, r.log);
    }
  }

  lemma PreAsksOnce(route: CompiledRoute, st: State, w: World)
    requires AllClean(route.policy)
    ensures PhaseAsksOnce(PreRun(route, st, w), st)
  {
    var fields := ArgsRun(route, st, w);
    RulesAreSilent(route.args, st.payload.args, 0, st.bag, Pre, ARGS_AT, w);
    PhaseOfAsksOnce(fields, st.(payload := st.payload.(args := fields.root)), route.policy, POLICY_AT, Pre, w);
  }

  lemma PostAsksOnce(route: CompiledRoute, st: State, w: World)
    requires AllClean(route.postPolicy)
    ensures PhaseAsksOnce(PostRun(route, st, w), st)
  {
    if st.payload.result.None? {
      PhaseOfAsksOnce(NO_FIELDS, st, route.postPolicy, POST_POLICY_AT, Post, w);
    } else {
      var fields := ResultRun(route, st, w);
      RulesAreSilent(route.result, st.payload.result.value, 0, st.bag, Post, RESULT_AT, w);
      PhaseOfAsksOnce(fields, st.(payload := st.payload.(result := Some(fields.root))), route.postPolicy,
                      POST_POLICY_AT, Post, w);
    }
  }

  /** Over both phases at most one dispatch succeeds, none if the request brought an id, and every check
      and validation is about the one question. */
  lemma RouteAsksOnce(route: CompiledRoute, st: State, w: World)
    requires AllClean(route.policy) && AllClean(route.postPolicy)
    ensures PhaseAsksOnce(RouteRun(route, st, w), st)
  {
    var pre := PreRun(route, st, w);
    PreAsksOnce(route, st, w);
    if Forwards(pre.report) {
      var post := PostRun(route, pre.st, w);
      PostAsksOnce(route, pre.st, w);
      OneQuestionComposes(IdOf(st), IdOf(pre.st), IdOf(post.st), pre.log, post.log);
    }
  }

  /** Two steps that name different approvers, on a retry that brings an id: both are passed on what the
      handler says of that one question, and nobody is contacted. */
  lemma SecondApproverNeverAsked(a: ElicitStep, b: ElicitStep, st: State, pos: Pos, phase: Phase, w: World)
    requires a.from != b.from && !Continues(a.onError) && !Continues(b.onError) && IdOf(st).Some?
    requires Approvals.Approved(a, st.bag, pos + [0], w)
    requires Approvals.Approved(b, ElicitRun(a, st, pos + [0], phase, w).st.bag, pos + [1], w)
    ensures var r := Steps([Elicit(a), Elicit(b)], st, pos, In(phase, w));
      r.outcome.Continue? && NoDispatch(r.log) && AllAsk(r.log, IdOf(st).value)
  {
    var env := In(phase, w);
    ApprovedIsPassed(a, st, pos + [0], phase, w);
    ApprovedIsPassed(b, ElicitRun(a, st, pos + [0], phase, w).st, pos + [1], phase, w);
    BothPassed(Elicit(a), Elicit(b), st, pos, env);
    EngineDisciplined(phase, w);
    CleanListAsksOnce([Elicit(a), Elicit(b)], "", st, pos, 0, env);
  }

  lemma ApprovedIsPassed(step: ElicitStep, st: State, pos: Pos, phase: Phase, w: World)
    requires !Continues(step.onError) && Approvals.Approved(step, st.bag, pos, w)
    ensures var r := Exec(Elicit(step), "", st, pos, In(phase, w));
      r.outcome.Continue? && r.st == ElicitRun(step, st, pos, phase, w).st
  {
    Approvals.PassedIffApproved(step, st, pos, phase, w);
    assert Exec(Elicit(step), "", st, pos, In(phase, w)) == ElicitRun(step, st, pos, phase, w);
  }

  lemma BothPassed(x: Effect, y: Effect, st: State, pos: Pos, env: Env)
    requires var r := Exec(x, "", st, pos + [0], env);
      r.outcome.Continue? && Exec(y, "", r.st, pos + [1], env).outcome.Continue?
    ensures Steps([x, y], st, pos, env).outcome.Continue?
  {
    var r := Exec(x, "", st, pos + [0], env);
    assert [x, y][1..] == [y] && [y][1..] == [];
    assert Walk([y], "", r.st, pos, 1, env).outcome.Continue?;
  }
}
