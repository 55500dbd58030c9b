/** Routes and their phases (`evaluate_pre`, `evaluate_post` and `evaluate_route` in `route.rs`). */
module Routes {
  import opened Text
  import opened Json
  import opened Ir
  import opened World
  import opened Runs
  import opened Trees
  import opened Engine
  import opened FieldRules
  import Evaluator

  datatype CompiledRoute = CompiledRoute(
    key: string,
    args: seq<FieldRule>,
    policy: seq<Effect>,
    result: seq<FieldRule>,
    postPolicy: seq<Effect>,
    overrides: map<string, Json>,
    response: Option<Json>)

  datatype RouteDecision = RouteDecision(
    decision: Decision,
    taints: seq<TaintEvent>,
    constraints: seq<CandidateConstraint>,
    argsModified: bool,
    resultModified: bool,
    pending: Option<Pending>)

  /** A phase's report, the state it left and the calls it made. */
  datatype PhaseRun = PhaseRun(report: RouteDecision, st: State, log: seq<Event>)

  /** The host goes on only with Allow and nothing pending. */
  predicate Forwards(d: RouteDecision) { d.decision.Allowed? && d.pending.None? }

  // Where each part of a route sits in the tree of positions.
  const ARGS_AT: Pos := [0]
  const POLICY_AT: Pos := [1]
  const RESULT_AT: Pos := [2]
  const POST_POLICY_AT: Pos := [3]

  // ----- the phases -----

  /** The field rules of one side, then the effects of the phase unless a rule denied. */
  function PhaseOf(fields: FieldsRun, st: State, effects: seq<Effect>, pos: Pos, phase: Phase, w: World): PhaseRun
  {
    if fields.denied.Some? then
      PhaseRun(RouteDecision(fields.denied.value, fields.taints, [], phase == Pre && fields.modified,
                             phase == Post && fields.modified, None), st, fields.log)
    else
      var r := Steps(effects, st, pos, In(phase, w));
      var e := Report(r);
      PhaseRun(RouteDecision(e.decision, fields.taints + e.taints, e.constraints,
                             phase == Pre && (fields.modified || e.argsModified),
                             phase == Post && (fields.modified || e.resultModified), e.pending),
               r.st, fields.log + r.log)
  }

  function ArgsRun(route: CompiledRoute, st: State, w: World): FieldsRun
  {
    RunRules(route.args, st.payload.args, 0, Pipelining(st.bag, Pre, ARGS_AT, w))
  }

  function ResultRun(route: CompiledRoute, st: State, w: World): FieldsRun
    requires st.payload.result.Some?
  {
    RunRules(route.result, st.payload.result.value, 0, Pipelining(st.bag, Post, RESULT_AT, w))
  }

  function PreRun(route: CompiledRoute, st: State, w: World): PhaseRun
  {
    var fields := ArgsRun(route, st, w);
    PhaseOf(fields, st.(payload := st.payload.(args := fields.root)), route.policy, POLICY_AT, Pre, w)
  }

  const NO_FIELDS := FieldsRun(None, Null, false, [], [])

  function PostRun(route: CompiledRoute, st: State, w: World): PhaseRun
  {
    if st.payload.result.None? then PhaseOf(NO_FIELDS, st, route.postPolicy, POST_POLICY_AT, Post, w)
    else
      var fields := ResultRun(route, st, w);
      PhaseOf(fields, st.(payload := st.payload.(result := Some(fields.root))), route.postPolicy, POST_POLICY_AT, Post,
              w)
  }

  /** Post is reached only when pre neither denied nor suspended. */
  function RouteRun(route: CompiledRoute, st: State, w: World): PhaseRun
  {
    var pre := PreRun(route, st, w);
    if !Forwards(pre.report) then pre
    else
      var post := PostRun(route, pre.st, w);
      PhaseRun(RouteDecision(post.report.decision, pre.report.taints + post.report.taints,
                             pre.report.constraints + post.report.constraints, pre.report.argsModified,
                             post.report.resultModified, post.report.pending),
               post.st, pre.log + post.log)
  }

  // ----- as they run -----

  /** A request: the bag and the payload the phases rewrite. */
  class Request {
    const w: World
    var bag: Bag
    var payload: Payload
    ghost var log: seq<Event>

    constructor (bag: Bag, payload: Payload, w: World)
      ensures this.bag == bag && this.payload == payload && this.w == w && log == []
    {
      this.w := w;
      this.bag := bag;
      this.payload := payload;
      log := [];
    }

    ghost function Now(): State reads this { State(bag, payload) }

    method RunPolicy(effects: seq<Effect>, pos: Pos, phase: Phase) returns (eval: StepsEvaluation)
      modifies this
      ensures var r := Steps(effects, old(Now()), pos, In(phase, w));
        eval == Report(r) && Now() == r.st && log == old(log) + r.log
    {
      var st;
      ghost var events;
      eval, st, events := Evaluator.EvaluateEffects(effects, bag, payload, pos, phase, w);
      bag, payload := st.bag, st.payload;
      log := log + events;
    }

    method EvaluatePre(route: CompiledRoute) returns (d: RouteDecision)
      modifies this
      ensures var r := PreRun(route, old(Now()), w); d == r.report && Now() == r.st && log == old(log) + r.log
    {
      ghost var fields := ArgsRun(route, Now(), w);
      var denied, args, modified, taints;
      ghost var events;
      denied, args, modified, taints, events := EvaluateFields(route.args, payload.args, bag, Pre, ARGS_AT, w);
      payload := payload.(args := args);
      log := log + events;
      if denied.Some? { return RouteDecision(denied.value, taints, [], modified, false, None); }
      ghost var r := Steps(route.policy, Now(), POLICY_AT, In(Pre, w));
      var eval := RunPolicy(route.policy, POLICY_AT, Pre);
      assert old(log) + (events + r.log) == old(log) + events + r.log;
      d := RouteDecision(eval.decision, taints + eval.taints, eval.constraints, modified || eval.argsModified, false,
                         eval.pending);
    }

    method EvaluatePost(route: CompiledRoute) returns (d: RouteDecision)
      modifies this
      ensures var r := PostRun(route, old(Now()), w); d == r.report && Now() == r.st && log == old(log) + r.log
    {
      var modified, taints := false, [];
      ghost var events: seq<Event> := [];
      if payload.result.Some? {
        var denied, result;
        denied, result, modified, taints, events :=
          EvaluateFields(route.result, payload.result.value, bag, Post, RESULT_AT, w);
        payload := payload.(result := Some(result));
        log := log + events;
        if denied.Some? { return RouteDecision(denied.value, taints, [], false, modified, None); }
      }
      ghost var r := Steps(route.postPolicy, Now(), POST_POLICY_AT, In(Post, w));
      var eval := RunPolicy(route.postPolicy, POST_POLICY_AT, Post);
      assert old(log) + (events + r.log) == old(log) + events + r.log;
      d := RouteDecision(eval.decision, taints + eval.taints, eval.constraints, false, modified || eval.resultModified,
                         eval.pending);
    }

    method EvaluateRoute(route: CompiledRoute) returns (d: RouteDecision)
      modifies this
      ensures var r := RouteRun(route, old(Now()), w); d == r.report && Now() == r.st && log == old(log) + r.log
    {
      ghost var r1 := PreRun(route, Now(), w);
      ghost var r2 := PostRun(route, r1.st, w);
      var pre := EvaluatePre(route);
      if pre.decision.Denied? || pre.pending.Some? { return pre; }
      var post := EvaluatePost(route);
      assert old(log) + (r1.log + r2.log) == old(log) + r1.log + r2.log;
      d := RouteDecision(post.decision, pre.taints + post.taints, pre.constraints + post.constraints,
                         pre.argsModified, post.resultModified, post.pending);
    }
  }
}
