/** What the phases of a route keep, and when a route lets a request through. */
module RouteLaws {
  import opened Text
  import opened Json
  import opened Ir
  import opened Attributes
  import opened World
  import opened Pipelines
  import opened Runs
  import opened Leaves
  import opened Trees
  import opened Engine
  import opened Frames
  import opened FieldRules
  import opened Routes
  import opened Purity
  import opened FailClosed

  // ----- each phase keeps to its side, and the flags are honest -----

  predicate KeepsToSide(phase: Phase, st: State, r: Run)
  {
    && (phase == Pre ==> r.st.payload.result == st.payload.result && !r.resultModified)
    && (phase == Post ==> r.st.payload.args == st.payload.args && !r.argsModified)
    && (!r.argsModified ==> r.st.payload.args == st.payload.args)
    && (!r.resultModified ==> r.st.payload.result == st.payload.result)
    && (st.payload.result.None? ==> r.st.payload.result.None?)
  }

  function Sided(phase: Phase): (State, Run) -> bool { (st, r) => KeepsToSide(phase, st, r) }

  function Any(): Effect -> bool { e => true }

  lemma SidedComposes(phase: Phase)
    ensures Composes(Sided(phase))
  {
  }

  lemma {:induction false} EverythingIsAllowed(e: Effect)
    ensures TreeLeaves(e, Any())
    decreases e
  {
    match e
    case Sequential(body) => AllIsAllowed(body);
    case Parallel(branches) => AllIsAllowed(branches);
    case When(_, body, _) => AllIsAllowed(body);
    case Pdp(_, onAllow, onDeny) =>
      AllIsAllowed(onAllow);
      AllIsAllowed(onDeny);
    case _ =>
  }

  lemma {:induction false} AllIsAllowed(es: seq<Effect>)
    ensures AllLeaves(es, Any())
    decreases es
  {
    if es != [] {
      EverythingIsAllowed(es[0]);
      AllIsAllowed(es[1..]);
    }
  }

  lemma EditIsHonest(root: Json, field: string, stages: seq<Stage>, site: Site)
    ensures var e := EditField(root, field, stages, site); !e.modified ==> e.root == root
  {
  }

  lemma FieldOpSided(path: string, stages: seq<Stage>, src: string, st: State, pos: Pos, phase: Phase, w: World)
    ensures KeepsToSide(phase, st, FieldOpRun(path, stages, src, st, pos, phase, w))
  {
    var args, result := StripPrefix(path, ARGS_PREFIX), StripPrefix(path, RESULT_PREFIX);
    if args.Some? {
      EditIsHonest(st.payload.args, args.value, stages, Site(st.bag, args.value, phase, pos, w));
    } else if result.Some? && st.payload.result.Some? {
      EditIsHonest(st.payload.result.value, result.value, stages, Site(st.bag, result.value, phase, pos, w));
    }
  }

  predicate KeepsPayload(st: State, r: Run)
  {
    r.st.payload == st.payload && !r.argsModified && !r.resultModified
  }

  lemma CheckKeepsPayload(step: ElicitStep, id: string, st: State, pos: Pos, phase: Phase, w: World)
    ensures KeepsPayload(st, CheckRun(step, id, st, pos, phase, w))
  {
    assert KeepsPayload(st, ValidateRun(step, id, st, pos, phase, w));
  }

  lemma ElicitKeepsPayload(step: ElicitStep, st: State, pos: Pos, phase: Phase, w: World)
    ensures KeepsPayload(st, ElicitRun(step, st, pos, phase, w))
  {
    var from, id := ResolveFrom(step, st.bag), GetString(st.bag, ELICIT_ID);
    if from.None? { return; }
    if id.Some? { CheckKeepsPayload(step, id.value, st, pos, phase, w); return; }
    var answer := w.dispatch(pos, step, from.value);
    if answer.Dispatched? {
      var bag := OpenedBag(st.bag, step, answer.id, answer.approver, answer.intentId, answer.expiresAt);
      CheckKeepsPayload(step, answer.id, st.(bag := bag), pos, phase, w);
    }
  }

  /** Only field edits touch the payload. */
  lemma OthersKeepPayload(e: Effect, src: string, st: State, pos: Pos, phase: Phase, w: World)
    requires !e.FieldOp?
    ensures KeepsPayload(st, LeafRun(e, src, st, pos, phase, w))
  {
    if e.Elicit? { ElicitKeepsPayload(e.step, st, pos, phase, w); }
  }

  lemma LeavesSided(phase: Phase, w: World)
    ensures LeavesObey(In(phase, w), Any(), Sided(phase))
  {
    forall e, src, st, pos | IsLeaf(e) ensures KeepsToSide(phase, st, In(phase, w).leaf(e, src, st, pos)) {
      if e.FieldOp? {
        FieldOpSided(e.path, e.stages, src, st, pos, phase, w);
      } else {
        OthersKeepPayload(e, src, st, pos, phase, w);
      }
    }
  }

  /** Through every tree of effects, in every world. */
  lemma StepsSided(es: seq<Effect>, st: State, pos: Pos, phase: Phase, w: World)
    ensures KeepsToSide(phase, st, Steps(es, st, pos, In(phase, w)))
  {
    SidedComposes(phase);
    LeavesSided(phase, w);
    AllIsAllowed(es);
    WalkObeys(es, "", st, pos, 0, In(phase, w), Any(), Sided(phase));
    assert Sided(phase)(st, Steps(es, st, pos, In(phase, w)));
  }

  /** Before the call the result is never changed, and unless the flag says so neither are the args. */
  lemma PreKeepsResult(route: CompiledRoute, st: State, w: World)
    ensures var r := PreRun(route, st, w);
      && r.st.payload.result == st.payload.result && !r.report.resultModified
      && (!r.report.argsModified ==> r.st.payload == st.payload)
  {
    var fields := ArgsRun(route, st, w);
    RulesFlagHonest(route.args, st.payload.args, 0, Pipelining(st.bag, Pre, ARGS_AT, w));
    StepsSided(route.policy, st.(payload := st.payload.(args := fields.root)), POLICY_AT, Pre, w);
  }

  /** After the call the args are never changed, and unless the flag says so neither is the result. */
  lemma PostKeepsArgs(route: CompiledRoute, st: State, w: World)
    ensures var r := PostRun(route, st, w);
      && r.st.payload.args == st.payload.args && !r.report.argsModified
      && (!r.report.resultModified ==> r.st.payload == st.payload)
      && (st.payload.result.None? ==> r.st.payload == st.payload)
  {
    if st.payload.result.None? {
      StepsSided(route.postPolicy, st, POST_POLICY_AT, Post, w);
    } else {
      var fields := ResultRun(route, st, w);
      RulesFlagHonest(route.result, st.payload.result.value, 0, Pipelining(st.bag, Post, RESULT_AT, w));
      StepsSided(route.postPolicy, st.(payload := st.payload.(result := Some(fields.root))), POST_POLICY_AT, Post, w);
    }
  }

  /** Over both phases, a lowered flag vouches for its side; a request stopped before the call
      leaves the result alone. */
  lemma RouteFlagsHonest(route: CompiledRoute, st: State, w: World)
    ensures var r := RouteRun(route, st, w);
      && (!r.report.argsModified ==> r.st.payload.args == st.payload.args)
      && (!r.report.resultModified ==> r.st.payload.result == st.payload.result)
      && (!Forwards(PreRun(route, st, w).report) ==> r.st.payload.result == st.payload.result && !Forwards(r.report))
  {
    PreKeepsResult(route, st, w);
    PostKeepsArgs(route, PreRun(route, st, w).st, w);
  }

  // ----- paths no rule mentions -----

  /** The effect does not edit at, above or below `q` on the side named by `prefix`. */
  predicate SparesPath(prefix: string, q: Path, e: Effect)
  {
    e.FieldOp? ==> var field := StripPrefix(e.path, prefix); field.Some? ==> Apart(Segments(field.value), q)
  }

  function Sparing(prefix: string, q: Path): Effect -> bool { e => SparesPath(prefix, q, e) }

  predicate SameArgsAt(q: Path, st: State, r: Run) { Get(r.st.payload.args, q) == Get(st.payload.args, q) }

  predicate SameResultAt(q: Path, st: State, r: Run)
  {
    && st.payload.result.Some? == r.st.payload.result.Some?
    && (st.payload.result.Some? ==> Get(r.st.payload.result.value, q) == Get(st.payload.result.value, q))
  }

  function ArgsKept(q: Path): (State, Run) -> bool { (st, r) => SameArgsAt(q, st, r) }

  function ResultKept(q: Path): (State, Run) -> bool { (st, r) => SameResultAt(q, st, r) }

  lemma KeptComposes(q: Path)
    ensures Composes(ArgsKept(q)) && Composes(ResultKept(q))
  {
  }

  lemma EditSpares(root: Json, field: string, stages: seq<Stage>, site: Site, q: Path)
    requires Apart(Segments(field), q)
    ensures Get(EditField(root, field, stages, site).root, q) == Get(root, q)
  {
    var p := Segments(field);
    if Get(root, p).Some? {
      var o := Evaluate(stages, Get(root, p).value, site).outcome;
      GetApart(root, p, q, if o.Replace? then o.value else Null);
    }
  }

  lemma FieldOpSpares(path: string, stages: seq<Stage>, src: string, st: State, pos: Pos, phase: Phase, w: World,
                      q: Path)
    ensures SparesPath(ARGS_PREFIX, q, FieldOp(path, stages)) ==>
      SameArgsAt(q, st, FieldOpRun(path, stages, src, st, pos, phase, w))
    ensures SparesPath(RESULT_PREFIX, q, FieldOp(path, stages)) ==>
      SameResultAt(q, st, FieldOpRun(path, stages, src, st, pos, phase, w))
  {
    var args, result := StripPrefix(path, ARGS_PREFIX), StripPrefix(path, RESULT_PREFIX);
    if args.Some? {
      if Apart(Segments(args.value), q) {
        EditSpares(st.payload.args, args.value, stages, Site(st.bag, args.value, phase, pos, w), q);
      }
    } else if result.Some? && st.payload.result.Some? && Apart(Segments(result.value), q) {
      EditSpares(st.payload.result.value, result.value, stages, Site(st.bag, result.value, phase, pos, w), q);
    }
  }

  lemma LeavesSpare(phase: Phase, w: World, q: Path)
    ensures LeavesObey(In(phase, w), Sparing(ARGS_PREFIX, q), ArgsKept(q))
    ensures LeavesObey(In(phase, w), Sparing(RESULT_PREFIX, q), ResultKept(q))
  {
    forall e, src, st, pos | IsLeaf(e)
      ensures SparesPath(ARGS_PREFIX, q, e) ==> SameArgsAt(q, st, In(phase, w).leaf(e, src, st, pos))
      ensures SparesPath(RESULT_PREFIX, q, e) ==> SameResultAt(q, st, In(phase, w).leaf(e, src, st, pos))
    {
      if e.FieldOp? {
        FieldOpSpares(e.path, e.stages, src, st, pos, phase, w, q);
      } else {
        OthersKeepPayload(e, src, st, pos, phase, w);
      }
    }
  }

  ghost predicate RulesSpare(rules: seq<FieldRule>, q: Path)
  {
    forall i :: 0 <= i < |rules| ==> Apart(Segments(rules[i].field), q)
  }

  /** A path no rule and no nested edit is related to keeps its value through the phase. */
  lemma PreKeepsOtherPaths(route: CompiledRoute, st: State, w: World, q: Path)
    requires RulesSpare(route.args, q) && AllLeaves(route.policy, Sparing(ARGS_PREFIX, q))
    ensures Get(PreRun(route, st, w).st.payload.args, q) == Get(st.payload.args, q)
  {
    var fields := ArgsRun(route, st, w);
    RulesKeepApart(route.args, st.payload.args, 0, Pipelining(st.bag, Pre, ARGS_AT, w), q);
    var mid := st.(payload := st.payload.(args := fields.root));
    KeptComposes(q);
    LeavesSpare(Pre, w, q);
    WalkObeys(route.policy, "", mid, POLICY_AT, 0, In(Pre, w), Sparing(ARGS_PREFIX, q), ArgsKept(q));
    assert ArgsKept(q)(mid, Steps(route.policy, mid, POLICY_AT, In(Pre, w)));
  }

  lemma PostKeepsOtherPaths(route: CompiledRoute, st: State, w: World, q: Path)
    requires RulesSpare(route.result, q) && AllLeaves(route.postPolicy, Sparing(RESULT_PREFIX, q))
    requires st.payload.result.Some?
    ensures PostRun(route, st, w).st.payload.result.Some?
    ensures Get(PostRun(route, st, w).st.payload.result.value, q) == Get(st.payload.result.value, q)
  {
    var fields := ResultRun(route, st, w);
    RulesKeepApart(route.result, st.payload.result.value, 0, Pipelining(st.bag, Post, RESULT_AT, w), q);
    var mid := st.(payload := st.payload.(result := Some(fields.root)));
    KeptComposes(q);
    LeavesSpare(Post, w, q);
    WalkObeys(route.postPolicy, "", mid, POST_POLICY_AT, 0, In(Post, w), Sparing(RESULT_PREFIX, q), ResultKept(q));
    assert ResultKept(q)(mid, Steps(route.postPolicy, mid, POST_POLICY_AT, In(Post, w)));
  }

  // ----- a route fails closed -----

  lemma {:induction false} RulesCareful(rules: seq<FieldRule>, root: Json, k: nat, bag: Bag, phase: Phase, pos: Pos,
                                        w: World)
    ensures var r := RunRules(rules, root, k, Pipelining(bag, phase, pos, w));
      (r.denied.None? ==> AllBenign(r.log)) && (r.denied.Some? ==> r.denied.value.Denied?)
    decreases |rules|
  {
    if rules != [] {
      var rule, pipe := rules[0], Pipelining(bag, phase, pos, w);
      EditCareful(root, rule.field, rule.stages, Site(bag, rule.field, phase, pos + [k], w));
      PipeliningEdits(rule, root, k, bag, phase, pos, w);
      var e := Edited(rule, root, k, pipe);
      RulesCareful(rules[1..], e.root, k + 1, bag, phase, pos, w);
      var rest := RunRules(rules[1..], e.root, k + 1, pipe);
      if e.rejected.None? && rest.denied.None? { BenignConcat(e.log, rest.log); }
    }
  }

  lemma PhaseCareful(fields: FieldsRun, st: State, effects: seq<Effect>, pos: Pos, phase: Phase, w: World)
    requires AllClean(effects)
    requires (fields.denied.None? ==> AllBenign(fields.log)) && (fields.denied.Some? ==> fields.denied.value.Denied?)
    ensures var r := PhaseOf(fields, st, effects, pos, phase, w); Forwards(r.report) ==> AllBenign(r.log)
  {
    PhaseFailsClosed(effects, st, pos, phase, w);
    var r := Steps(effects, st, pos, In(phase, w));
    if fields.denied.None? && AllBenign(r.log) { BenignConcat(fields.log, r.log); }
  }

  lemma PreFailsClosed(route: CompiledRoute, st: State, w: World)
    requires AllClean(route.policy)
    ensures Forwards(PreRun(route, st, w).report) ==> AllBenign(PreRun(route, st, w).log)
  {
    var fields := ArgsRun(route, st, w);
    RulesCareful(route.args, st.payload.args, 0, st.bag, Pre, ARGS_AT, w);
    PhaseCareful(fields, st.(payload := st.payload.(args := fields.root)), route.policy, POLICY_AT, Pre, w);
  }

  lemma PostFailsClosed(route: CompiledRoute, st: State, w: World)
    requires AllClean(route.postPolicy)
    ensures Forwards(PostRun(route, st, w).report) ==> AllBenign(PostRun(route, st, w).log)
  {
    if st.payload.result.None? {
      PhaseCareful(NO_FIELDS, st, route.postPolicy, POST_POLICY_AT, Post, w);
    } else {
      var fields := ResultRun(route, st, w);
      RulesCareful(route.result, st.payload.result.value, 0, st.bag, Post, RESULT_AT, w);
      PhaseCareful(fields, st.(payload := st.payload.(result := Some(fields.root))), route.postPolicy, POST_POLICY_AT,
                   Post, w);
    }
  }

  /** A request that gets through both phases met no denial, no error and no open question, field
      pipelines included, except where a step says `on_error: continue`. */
  lemma RouteFailsClosed(route: CompiledRoute, st: State, w: World)
    requires AllClean(route.policy) && AllClean(route.postPolicy)
    ensures Forwards(RouteRun(route, st, w).report) ==> AllBenign(RouteRun(route, st, w).log)
  {
    var pre := PreRun(route, st, w);
    PreFailsClosed(route, st, w);
    PostFailsClosed(route, pre.st, w);
    var post := PostRun(route, pre.st, w);
    if Forwards(pre.report) && Forwards(post.report) { BenignConcat(pre.log, post.log); }
  }
}
