/** Whole runs fail closed (`evaluate_effects` in `evaluator.rs`): a phase that ends Allow with
    nothing pending has seen no denial, no error and no open question, except where a step says
    `on_error: continue`. */
module FailClosed {
  import opened Text
  import opened Json
  import opened Ir
  import opened Attributes
  import opened World
  import opened Pipelines
  import opened Runs
  import opened Leaves
  import opened Trees
  import opened Purity
  import opened Scheduling
  import opened Engine

  /** An answer a run may go past. */
  predicate Benign(ev: Event)
  {
    match ev
    case PdpCalled(_, _, answer) => answer == PdpOk(Allowed)
    case PluginCalled(_, _, answer) => answer.PluginOk? && answer.decision.Allowed?
    case DelegateCalled(_, d, answer) => (answer.DelegateOk? && answer.decision.Allowed?) || Continues(d.onError)
    case ElicitDispatched(_, step, answer) => answer.Dispatched? || Continues(step.onError)
    case ElicitChecked(_, step, _, answer) =>
      || answer == Checked(StatusResolved(true))
      || (Continues(step.onError) && (answer.CheckErr? || answer == Checked(StatusExpired)))
    case ElicitValidated(_, step, _, answer) => (answer.Validated? && answer.valid) || Continues(step.onError)
    case Restricted(_, _, _) => true
  }

  predicate AllBenign(log: seq<Event>) { forall i :: 0 <= i < |log| ==> Benign(log[i]) }

  /** A run that goes on has only benign answers behind it; one that halts carries a denial. */
  predicate Careful(r: Run)
  {
    && (r.outcome.Continue? ==> AllBenign(r.log))
    && (r.outcome.Halt? ==> r.outcome.decision.Denied?)
  }

  ghost predicate LeavesAreCareful(env: Env)
  {
    forall e, src, st, pos :: IsLeaf(e) ==> Careful(env.leaf(e, src, st, pos))
  }

  lemma BenignConcat(a: seq<Event>, b: seq<Event>)
    requires AllBenign(a) && AllBenign(b)
    ensures AllBenign(a + b)
  {
  }

  lemma {:induction false} MergeBenign(rs: seq<Run>, slots: seq<Slot>, st: State)
    requires |slots| == |rs| && forall i :: 0 <= i < |rs| ==> slots[i] == Completed(rs[i]) && AllBenign(rs[i].log)
    ensures AllBenign(Merge(slots, st).log)
  {
    if rs != [] {
      assert slots[0] == Completed(rs[0]);
      MergeBenign(rs[1..], slots[1..], st);
      BenignConcat(rs[0].log, Merge(slots[1..], st).log);
    }
  }

  ghost predicate Trusted(env: Env) { LeavesAreCareful(env) && PureLeavesAreQuiet(env) }

  lemma {:induction false} CleanIsCareful(e: Effect, src: string, st: State, pos: Pos, env: Env)
    requires Trusted(env) && Clean(e)
    ensures Careful(Exec(e, src, st, pos, env))
    decreases e
  {
    if IsLeaf(e) { return; }
    CleanChildren(e);
    match e
    case Sequential(body) => CleanListIsCareful(body, src, st, pos, 0, env);
    case Parallel(branches) => BlockIsCareful(branches, src, st, pos, env);
    case When(_, body, source) => CleanListIsCareful(body, source, st, pos, 0, env);
    case Pdp(call, onAllow, onDeny) =>
      assert AllClean(onAllow) by { assert forall i :: 0 <= i < |onAllow| ==> Children(e)[i] == onAllow[i]; }
      assert AllClean(onDeny) by {
        assert forall i :: 0 <= i < |onDeny| ==> Children(e)[|onAllow| + i] == onDeny[i];
      }
      CleanListIsCareful(onAllow, src, st, pos + [0], 0, env);
      CleanListIsCareful(onDeny, src, st, pos + [1], 0, env);
      var answer := env.w.pdp(pos, call, st.bag);
      if answer == PdpOk(Allowed) && Walk(onAllow, src, st, pos + [0], 0, env).outcome.Continue? {
        BenignConcat([PdpCalled(pos, call, answer)], Walk(onAllow, src, st, pos + [0], 0, env).log);
      }
  }

  lemma {:induction false} CleanListIsCareful(es: seq<Effect>, src: string, st: State, pos: Pos, k: nat, env: Env)
    requires Trusted(env) && AllClean(es)
    ensures Careful(Walk(es, src, st, pos, k, env))
    decreases es
  {
    if es != [] {
      var r := Exec(es[0], src, st, pos + [k], env);
      CleanIsCareful(es[0], src, st, pos + [k], env);
      CleanListIsCareful(es[1..], src, r.st, pos, k + 1, env);
      if Walk(es, src, st, pos, k, env).outcome.Continue? {
        BenignConcat(r.log, Walk(es[1..], src, r.st, pos, k + 1, env).log);
      }
    }
  }

  lemma {:induction false} BlockIsCareful(es: seq<Effect>, src: string, st: State, pos: Pos, env: Env)
    requires Trusted(env) && AllClean(es) && !SomeMutation(es)
    ensures Careful(Exec(Parallel(es), src, st, pos, env))
    decreases es, 1
  {
    var rs := Branches(es, src, st, pos, 0, env);
    forall i | 0 <= i < |es| ensures Careful(rs[i]) && !rs[i].outcome.Suspend? {
      BranchAt(es, src, st, pos, 0, env, i);
      PureIsQuiet(es[i], src, st, pos + [i], env);
      CleanIsCareful(es[i], src, st, pos + [i], env);
    }
    CarefulBranches(rs, pos, env.w, st);
  }

  /** In a block that goes on every branch completed; branches that cannot suspend then went on too. */
  lemma CarefulBranches(rs: seq<Run>, pos: Pos, w: World, st: State)
    requires forall i :: 0 <= i < |rs| ==> Careful(rs[i]) && !rs[i].outcome.Suspend?
    ensures Careful(Merge(Slots(rs, pos, w), st))
  {
    var slots := Slots(rs, pos, w);
    BlockVerdict(rs, pos, w, st);
    if AnyHalt(rs) {
      var i: nat :| FirstHalt(slots, i) && Merge(slots, st).outcome == rs[i].outcome;
    } else {
      assert forall i :: 0 <= i < |rs| ==> slots[i] == Completed(rs[i]);
      MergeBenign(rs, slots, st);
    }
  }

  // ----- the engine's single-step effects -----

  lemma StageCareful(stage: Stage, v: Json, c: Site, idx: nat)
    ensures var s := RunStage(stage, v, c, idx);
      (s.Go? || !s.outcome.Reject?) ==> AllBenign(s.log)
  {
  }

  lemma {:induction false} FlowCareful(stages: seq<Stage>, base: nat, v: Json, changed: bool, c: Site)
    ensures var r := Flow(stages, base, v, changed, At(c)); !r.outcome.Reject? ==> AllBenign(r.log)
    decreases |stages|
  {
    if stages != [] {
      var s := At(c)(stages[0], v, base);
      StageCareful(stages[0], v, c, base);
      if s.Go? {
        FlowCareful(stages[1..], base + 1, s.value, changed || s.changed, c);
        var r := Flow(stages[1..], base + 1, s.value, changed || s.changed, At(c));
        if !r.outcome.Reject? { BenignConcat(s.log, r.log); }
      }
    }
  }

  lemma EditCareful(root: Json, field: string, stages: seq<Stage>, site: Site)
    ensures var e := EditField(root, field, stages, site); e.rejected.None? ==> AllBenign(e.log)
  {
    var current := Get(root, Segments(field));
    if current.Some? { FlowCareful(stages, 0, current.value, false, site); }
  }

  lemma FieldOpCareful(path: string, stages: seq<Stage>, src: string, st: State, pos: Pos, phase: Phase, w: World)
    ensures Careful(FieldOpRun(path, stages, src, st, pos, phase, w))
  {
    var args, result := StripPrefix(path, ARGS_PREFIX), StripPrefix(path, RESULT_PREFIX);
    if args.Some? {
      EditCareful(st.payload.args, args.value, stages, Site(st.bag, args.value, phase, pos, w));
    } else if result.Some? && st.payload.result.Some? {
      EditCareful(st.payload.result.value, result.value, stages, Site(st.bag, result.value, phase, pos, w));
    }
  }

  lemma ValidateCareful(step: ElicitStep, id: string, st: State, pos: Pos, phase: Phase, w: World)
    ensures Careful(ValidateRun(step, id, st, pos, phase, w))
  {
  }

  lemma CheckCareful(step: ElicitStep, id: string, st: State, pos: Pos, phase: Phase, w: World)
    ensures Careful(CheckRun(step, id, st, pos, phase, w))
  {
    ValidateCareful(step, id, st, pos, phase, w);
    var r := ValidateRun(step, id, st, pos, phase, w);
    if w.check(pos, step, id) == Checked(StatusResolved(true)) && r.outcome.Continue? {
      BenignConcat([ElicitChecked(pos, step, id, Checked(StatusResolved(true)))], r.log);
    }
  }

  lemma ElicitCareful(step: ElicitStep, st: State, pos: Pos, phase: Phase, w: World)
    ensures Careful(ElicitRun(step, st, pos, phase, w))
  {
    var from := ResolveFrom(step, st.bag);
    if from.Some? {
      var id := GetString(st.bag, ELICIT_ID);
      if id.Some? {
        CheckCareful(step, id.value, st, pos, phase, w);
      } else {
        var answer := w.dispatch(pos, step, from.value);
        if answer.Dispatched? {
          var st1 := st.(bag := OpenedBag(st.bag, step, answer.id, answer.approver, answer.intentId, answer.expiresAt));
          CheckCareful(step, answer.id, st1, pos, phase, w);
          var r := CheckRun(step, answer.id, st1, pos, phase, w);
          if r.outcome.Continue? { BenignConcat([ElicitDispatched(pos, step, answer)], r.log); }
        }
      }
    }
  }

  lemma LeafCareful(e: Effect, src: string, st: State, pos: Pos, phase: Phase, w: World)
    ensures Careful(LeafRun(e, src, st, pos, phase, w))
  {
    match e
    case Elicit(step) => ElicitCareful(step, st, pos, phase, w);
    case FieldOp(path, stages) => FieldOpCareful(path, stages, src, st, pos, phase, w);
    case _ =>
  }

  lemma EngineTrusted(phase: Phase, w: World)
    ensures Trusted(In(phase, w))
  {
    var env := In(phase, w);
    forall e, src, st, pos | IsLeaf(e) ensures Careful(env.leaf(e, src, st, pos)) {
      LeafCareful(e, src, st, pos, phase, w);
    }
    EngineIsQuiet(phase, w);
  }

  /** For every validated effect list, every state and every world: a phase reported as Allow with
      nothing pending has only benign answers in its log. */
  lemma PhaseFailsClosed(es: seq<Effect>, st: State, pos: Pos, phase: Phase, w: World)
    requires AllClean(es)
    ensures var r := Steps(es, st, pos, In(phase, w));
      Report(r).decision.Allowed? && Report(r).pending.None? ==> AllBenign(r.log)
  {
    EngineTrusted(phase, w);
    CleanListIsCareful(es, "", st, pos, 0, In(phase, w));
  }

  /** A remark: no list of reactions turns a PDP denial or error into going on, in any tree; reactions
      that would go on leave the PDP's own denial standing. */
  lemma PdpDenialStands(call: PdpCall, onAllow: seq<Effect>, onDeny: seq<Effect>, src: string, st: State, pos: Pos,
                        env: Env)
    requires env.w.pdp(pos, call, st.bag) != PdpOk(Allowed)
    ensures var answer, r := env.w.pdp(pos, call, st.bag), Exec(Pdp(call, onAllow, onDeny), src, st, pos, env);
      && !r.outcome.Continue?
      && (answer.PdpOk? && Walk(onDeny, src, st, pos + [1], 0, env).outcome.Continue? ==>
          r.outcome == Halt(answer.decision))
  {
  }

  /** Why the validation is needed: a question left open inside a parallel block is dropped, and
      the block goes on. */
  lemma OpenQuestionLostInParallel(step: ElicitStep, src: string, st: State, pos: Pos, phase: Phase, w: World,
                                   id: string)
    requires ResolveFrom(step, st.bag).Some? && GetString(st.bag, ELICIT_ID) == Some(id)
    requires w.check(pos + [0], step, id) == Checked(StatusPending)
    ensures var r := Exec(Parallel([Elicit(step)]), src, st, pos, In(phase, w));
      r.outcome.Continue? && !AllBenign(r.log)
  {
    var r := ElicitRun(step, st, pos + [0], phase, w);
    assert r.outcome.Suspend? && r.log[0] == ElicitChecked(pos + [0], step, id, Checked(StatusPending));
    SuspendedBranchDropped(Elicit(step), src, st, pos, In(phase, w));
  }

  lemma SuspendedBranchDropped(e: Effect, src: string, st: State, pos: Pos, env: Env)
    requires Exec(e, src, st, pos + [0], env).outcome.Suspend?
    ensures Exec(Parallel([e]), src, st, pos, env).outcome.Continue?
    ensures Exec(Parallel([e]), src, st, pos, env).log == Exec(e, src, st, pos + [0], env).log
  {
    var r := Exec(e, src, st, pos + [0], env);
    assert [e][1..] == [];
    assert Branches([e], src, st, pos, 0, env) == [r];
    var slots := Slots([r], pos, env.w);
    assert slots == [Completed(r)] && slots[1..] == [];
    assert Merge(slots[1..], st) == Done(st);
    assert Exec(Parallel([e]), src, st, pos, env) == Merge(slots, st);
    assert r.log + [] == r.log;
  }
}
