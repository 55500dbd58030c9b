/** The evaluator as it runs (`evaluator.rs`): one object per phase whose bag, payload, taints,
    constraints and flags the dispatch methods update, proved against `Leaves` and `Trees`. */
module Evaluator {
  import opened Text
  import opened Json
  import opened Ir
  import opened Attributes
  import opened World
  import opened Pipelines
  import opened Constraints
  import opened Runs
  import opened Leaves
  import opened Trees
  import opened Engine
  import opened Layering
  import opened Scheduling
  import opened Purity
  import PredParser

  /** Read one field, run the stages on it, write the outcome back. */
  method RunOnField(root: Json, field: string, stages: seq<Stage>, site: Site)
    returns (rejected: Option<Reason>, updated: Json, modified: bool, taints: seq<TaintEvent>, ghost log: seq<Event>)
    ensures var e := EditField(root, field, stages, site);
      rejected == e.rejected && updated == e.root && modified == e.modified && taints == e.taints
    ensures log == EditField(root, field, stages, site).log
  {
    rejected, updated, modified, taints, log := None, root, false, [], [];
    var current := GetDotted(root, field);
    if current.None? { return; }
    var outcome;
    outcome, taints, log := EvaluatePipeline(stages, current.value, site);
    match outcome {
      case Pass =>
      case Replace(v) => modified, updated := SetDotted(root, field, v);
      case OmitField => modified, updated := RemoveDotted(root, field);
      case Reject(reason, _) => rejected := Some(reason);
    }
  }

  /** Everything an evaluation has accumulated. */
  datatype Trace = Trace(
    st: State,
    taints: seq<TaintEvent>,
    constraints: seq<CandidateConstraint>,
    argsModified: bool,
    resultModified: bool,
    log: seq<Event>)

  ghost function Extended(t: Trace, r: Run): Trace
  {
    Trace(r.st, t.taints + r.taints, t.constraints + r.constraints, t.argsModified || r.argsModified,
          t.resultModified || r.resultModified, t.log + r.log)
  }

  lemma ExtendedThen(t: Trace, a: Run, b: Run)
    requires a.outcome.Continue?
    ensures Extended(Extended(t, a), b) == Extended(t, Then(a, b))
  {
    assert t.taints + (a.taints + b.taints) == t.taints + a.taints + b.taints;
    assert t.constraints + (a.constraints + b.constraints) == t.constraints + a.constraints + b.constraints;
    assert t.log + (a.log + b.log) == t.log + a.log + b.log;
  }

  class Evaluation {
    const phase: Phase
    const w: World
    var bag: Bag
    var payload: Payload
    var taints: seq<TaintEvent>
    var constraints: seq<CandidateConstraint>
    var argsModified: bool
    var resultModified: bool
    ghost var log: seq<Event>

    constructor (bag: Bag, payload: Payload, phase: Phase, w: World)
      ensures this.phase == phase && this.w == w && this.bag == bag && this.payload == payload
      ensures taints == [] && constraints == [] && !argsModified && !resultModified && log == []
    {
      this.phase := phase;
      this.w := w;
      this.bag := bag;
      this.payload := payload;
      taints := [];
      constraints := [];
      argsModified := false;
      resultModified := false;
      log := [];
    }

    ghost function Now(): State reads this { State(bag, payload) }

    ghost function SoFar(): Trace reads this
    {
      Trace(Now(), taints, constraints, argsModified, resultModified, log)
    }

    /** The object has moved exactly as `r` says. */
    twostate predicate Did(r: Run)
      reads this
    {
      && Now() == r.st
      && taints == old(taints) + r.taints
      && constraints == old(constraints) + r.constraints
      && argsModified == (old(argsModified) || r.argsModified)
      && resultModified == (old(resultModified) || r.resultModified)
      && log == old(log) + r.log
    }

    method DispatchPlugin(name: string, pos: Pos) returns (outcome: Outcome)
      modifies this
      ensures var r := PluginRun(name, old(Now()), pos, phase, w); outcome == r.outcome && Did(r)
    {
      var answer := w.plugin(pos, name, bag, StepCall(phase));
      log := log + [PluginCalled(pos, name, answer)];
      match answer {
        case PluginErr(e) =>
          return Halt(Denied(Some(PluginFailed(name, e)), "plugin:" + name));
        case PluginOk(decision, emitted, _) =>
          taints := taints + emitted;
          return if decision.Allowed? then Outcome.Continue else Halt(decision);
      }
    }

    method DispatchDelegate(d: DelegateStep, pos: Pos) returns (outcome: Outcome)
      modifies this
      ensures var r := DelegateRun(d, old(Now()), pos, phase, w); outcome == r.outcome && Did(r)
    {
      var answer := w.delegate(pos, d);
      log := log + [DelegateCalled(pos, d, answer)];
      if answer.DelegateOk? && answer.decision.Allowed? {
        bag := bag[GRANTED := ABool(true)];
        if answer.permissions != [] {
          bag := bag[GRANTED_PERMISSIONS := ASet(ToSet(answer.permissions))];
        }
        bag := SetString(bag, GRANTED_AUDIENCE, answer.audience);
        bag := SetString(bag, GRANTED_EXPIRES_AT, answer.expiresAt);
        return Outcome.Continue;
      }
      if Continues(d.onError) { return Outcome.Continue; }
      return Halt(if answer.DelegateOk? then answer.decision
                  else Denied(Some(DelegateFailed(d.plugin, answer.error)), d.source));
    }

    method DispatchRestrict(spec: RestrictSpec, src: string, pos: Pos) returns (outcome: Outcome)
      modifies this
      ensures var r := RestrictRun(spec, src, old(Now()), pos, phase, w); outcome == r.outcome && Did(r)
    {
      match Resolve(spec, bag, w.host) {
        case Err(path) =>
          return Halt(Denied(Some(UnresolvedDenyList(path)), src));
        case Ok(constraint) =>
          log := log + [Restricted(pos, spec, bag)];
          if !IsEmpty(constraint) { constraints := constraints + [constraint]; }
          return Outcome.Continue;
      }
    }

    // ----- elicitation -----

    method Fail(step: ElicitStep, fault: ElicitFault) returns (outcome: Outcome)
      ensures outcome == ElicitFailing(step, fault, Now()).outcome
    {
      if Continues(step.onError) { return Outcome.Continue; }
      return Halt(Denied(Some(ElicitFailed(fault)), step.source));
    }

    method ValidateResponse(step: ElicitStep, id: string, pos: Pos) returns (outcome: Outcome)
      modifies this
      ensures var r := ValidateRun(step, id, old(Now()), pos, phase, w); outcome == r.outcome && Did(r)
    {
      var answer := w.validate(pos, step, id);
      log := log + [ElicitValidated(pos, step, id, answer)];
      if answer.ValidateErr? {
        outcome := Fail(step, ValidationFailed);
        return;
      }
      if !answer.valid {
        outcome := Fail(step, Invalid);
        return;
      }
      if step.scope.Some? {
        var e := PredParser.Parse(step.scope.value);
        if e.None? {
          outcome := Fail(step, ScopeUnparsable);
          return;
        }
        if !Eval(e.value, bag, w.host) {
          outcome := Fail(step, ScopeUnmet);
          return;
        }
      }
      bag := bag[ELICIT_STATUS := AString("resolved")][ELICIT_OUTCOME := AString("approved")];
      bag := SetString(bag, ELICIT_APPROVER, answer.approver);
      bag := SetString(bag, ELICIT_INTENT_ID, answer.intentId);
      return Outcome.Continue;
    }

    method CheckStatus(step: ElicitStep, id: string, pos: Pos) returns (outcome: Outcome)
      modifies this
      ensures var r := CheckRun(step, id, old(Now()), pos, phase, w); outcome == r.outcome && Did(r)
    {
      var answer := w.check(pos, step, id);
      log := log + [ElicitChecked(pos, step, id, answer)];
      match answer {
        case CheckErr(_) =>
          outcome := Fail(step, CheckFailed);
        case Checked(StatusPending) =>
          bag := bag[ELICIT_STATUS := AString("pending")];
          outcome := Suspend(Pending(id, step.plugin, GetString(bag, ELICIT_APPROVER), GetString(bag, ELICIT_INTENT_ID),
            step.channel, GetString(bag, ELICIT_EXPIRES_AT), step.source));
        case Checked(StatusExpired) =>
          bag := bag[ELICIT_STATUS := AString("expired")];
          outcome := Fail(step, Expired);
        case Checked(StatusResolved(false)) =>
          bag := bag[ELICIT_STATUS := AString("resolved")][ELICIT_OUTCOME := AString("denied")];
          outcome := Halt(Denied(Some(ElicitRefused), step.source));
        case Checked(StatusResolved(true)) =>
          outcome := ValidateResponse(step, id, pos);
      }
    }

    method Remember(step: ElicitStep, id: string, approver: Option<string>, intentId: Option<string>,
                    expiresAt: Option<string>)
      modifies `bag
      ensures bag == OpenedBag(old(bag), step, id, approver, intentId, expiresAt)
    {
      bag := bag[ELICIT_ID := AString(id)];
      bag := bag[ELICIT_STATUS := AString("pending")];
      bag := SetString(bag, ELICIT_CHANNEL, step.channel);
      bag := SetString(bag, ELICIT_APPROVER, approver);
      bag := SetString(bag, ELICIT_INTENT_ID, intentId);
      bag := SetString(bag, ELICIT_EXPIRES_AT, expiresAt);
    }

    /** A first arrival: open the question, then ask for its status. */
    method Ask(step: ElicitStep, from: string, pos: Pos) returns (outcome: Outcome)
      modifies this
      ensures var r := AskRun(step, from, old(Now()), pos, phase, w); outcome == r.outcome && Did(r)
    {
      var answer := w.dispatch(pos, step, from);
      log := log + [ElicitDispatched(pos, step, answer)];
      if answer.DispatchErr? {
        outcome := Fail(step, DispatchFailed);
        return;
      }
      Remember(step, answer.id, answer.approver, answer.intentId, answer.expiresAt);
      outcome := CheckStatus(step, answer.id, pos);
    }

    /** `dispatch_elicitation`. */
    method DispatchElicitation(step: ElicitStep, pos: Pos) returns (outcome: Outcome)
      modifies this
      ensures var r := ElicitRun(step, old(Now()), pos, phase, w); outcome == r.outcome && Did(r)
    {
      var from := GetString(bag, step.from);
      if from.None? && LooksLikeAttributeRef(step.from) {
        outcome := Fail(step, UnresolvedFrom);
        return;
      }
      var resolved := if from.Some? then from.value else step.from;
      var existing := GetString(bag, ELICIT_ID);
      if existing.Some? {
        outcome := CheckStatus(step, existing.value, pos);
      } else {
        outcome := Ask(step, resolved, pos);
      }
    }

    // ----- field edits -----

    /** `dispatch_field_op`. */
    method DispatchFieldOp(path: string, stages: seq<Stage>, src: string, pos: Pos) returns (outcome: Outcome)
      modifies this
      ensures var r := FieldOpRun(path, stages, src, old(Now()), pos, phase, w); outcome == r.outcome && Did(r)
    {
      var onArgs, onResult := StripPrefix(path, ARGS_PREFIX), StripPrefix(path, RESULT_PREFIX);
      var root, field;
      if onArgs.Some? {
        if phase != Pre { return Outcome.Continue; }
        root, field := payload.args, onArgs.value;
      } else if onResult.Some? {
        if phase != Post || payload.result.None? { return Outcome.Continue; }
        root, field := payload.result.value, onResult.value;
      } else {
        return Halt(Denied(Some(BadFieldPath(path)), src));
      }
      var rejected, updated, modified, emitted;
      ghost var events;
      rejected, updated, modified, emitted, events := RunOnField(root, field, stages, Site(bag, field, phase, pos, w));
      taints := taints + emitted;
      log := log + events;
      if onArgs.Some? {
        payload := payload.(args := updated);
        argsModified := argsModified || modified;
      } else {
        payload := payload.(result := Some(updated));
        resultModified := resultModified || modified;
      }
      return if rejected.Some? then Halt(Denied(rejected, src)) else Outcome.Continue;
    }

    // ----- trees of effects -----

    method DispatchLeaf(e: Effect, src: string, pos: Pos) returns (outcome: Outcome)
      requires IsLeaf(e)
      modifies this
      ensures var r := LeafRun(e, src, old(Now()), pos, phase, w); outcome == r.outcome && Did(r)
    {
      match e {
        case Allow => outcome := Outcome.Continue;
        case Deny(reason, code) =>
          outcome := Halt(Denied(if reason.Some? then Some(Said(reason.value)) else None,
                                 if code.Some? then code.value else src));
        case Plugin(name) => outcome := DispatchPlugin(name, pos);
        case Delegate(d) => outcome := DispatchDelegate(d, pos);
        case Elicit(step) => outcome := DispatchElicitation(step, pos);
        case Taint(tag, scopes) =>
          taints := taints + [TaintEvent(tag, scopes)];
          outcome := Outcome.Continue;
        case Restrict(spec) => outcome := DispatchRestrict(spec, src, pos);
        case FieldOp(path, stages) => outcome := DispatchFieldOp(path, stages, src, pos);
      }
    }

    /** `dispatch_effect`. */
    method DispatchEffect(e: Effect, src: string, pos: Pos) returns (outcome: Outcome)
      modifies this
      ensures var r := Exec(e, src, old(Now()), pos, In(phase, w)); outcome == r.outcome && Did(r)
      decreases e
    {
      if IsLeaf(e) {
        outcome := DispatchLeaf(e, src, pos);
        return;
      }
      match e {
        case Sequential(body) => outcome := DispatchAll(body, src, pos);
        case Parallel(branches) => outcome := DispatchParallel(branches, src, pos);
        case When(condition, body, source) =>
          if !Eval(condition, bag, w.host) { return Outcome.Continue; }
          outcome := DispatchAll(body, source, pos);
        case Pdp(call, onAllow, onDeny) =>
          outcome := DispatchPdp(call, onAllow, onDeny, src, pos, e);
      }
    }

    /** A denial stands whatever its reactions do, unless they end the phase themselves. */
    method DispatchPdp(call: PdpCall, onAllow: seq<Effect>, onDeny: seq<Effect>, src: string, pos: Pos, ghost e: Effect)
      returns (outcome: Outcome)
      requires e == Pdp(call, onAllow, onDeny)
      modifies this
      ensures var r := Exec(e, src, old(Now()), pos, In(phase, w)); outcome == r.outcome && Did(r)
      decreases e, 0
    {
      var answer := w.pdp(pos, call, bag);
      ghost var called, st := [PdpCalled(pos, call, answer)], Now();
      log := log + called;
      if answer.PdpErr? { return Halt(Denied(Some(PdpFailed(answer.error)), "pdp:" + call.dialect)); }
      if answer.decision.Allowed? {
        outcome := DispatchAll(onAllow, src, pos + [0]);
        assert log == old(log) + (called + Walk(onAllow, src, st, pos + [0], 0, In(phase, w)).log);
      } else {
        outcome := DispatchAll(onDeny, src, pos + [1]);
        assert log == old(log) + (called + Walk(onDeny, src, st, pos + [1], 0, In(phase, w)).log);
        if outcome.Continue? { outcome := Halt(answer.decision); }
      }
    }

    /** A list in order, stopping at the first halt or suspension. */
    method DispatchAll(es: seq<Effect>, src: string, pos: Pos) returns (outcome: Outcome)
      modifies this
      ensures var r := Walk(es, src, old(Now()), pos, 0, In(phase, w)); outcome == r.outcome && Did(r)
      decreases es
    {
      outcome := Outcome.Continue;
      ghost var env, whole, done := In(phase, w), Walk(es, src, Now(), pos, 0, In(phase, w)), Done(Now());
      assert es[0..] == es;
      ThenDone(whole);
      var i := 0;
      while i < |es|
        invariant 0 <= i <= |es| && outcome.Continue? && done.outcome.Continue?
        invariant SoFar() == Extended(old(SoFar()), done)
        invariant whole == Then(done, Walk(es[i..], src, Now(), pos, i, env))
      {
        ghost var next := Exec(es[i], src, Now(), pos + [i], env);
        WalkStep(es, i, src, done, pos, env);
        ExtendedThen(old(SoFar()), done, next);
        outcome := DispatchEffect(es[i], src, pos + [i]);
        done := Then(done, next);
        if !outcome.Continue? { return; }
        i := i + 1;
      }
    }

    /** `dispatch_parallel`. */
    method DispatchParallel(branches: seq<Effect>, src: string, pos: Pos) returns (outcome: Outcome)
      modifies this
      ensures var r := Merge(Slots(Branches(branches, src, old(Now()), pos, 0, In(phase, w)), pos, w), old(Now()));
        outcome == r.outcome && Did(r)
      decreases branches, 1
    {
      var results;
      ghost var runs;
      results, runs := RunBranches(branches, src, pos);
      outcome := Collect(results, runs, pos);
    }

    /** Each branch on its own copy of the bag and the payload. */
    method RunBranches(branches: seq<Effect>, src: string, pos: Pos)
      returns (results: seq<BranchResult>, ghost runs: seq<Run>)
      ensures runs == Branches(branches, src, Now(), pos, 0, In(phase, w))
      ensures Results(results, runs)
      decreases branches, 0
    {
      results, runs := [], [];
      ghost var env := In(phase, w);
      for i := 0 to |branches|
        invariant Results(results, runs) && |runs| == i
        invariant forall j: nat :: j < i ==> runs[j] == Exec(branches[j], src, Now(), pos + [j], env)
      {
        var branch := new Evaluation(bag, payload, phase, w);
        var outcome := branch.DispatchEffect(branches[i], src, pos + [i]);
        results := results + [BranchResult(outcome, branch.taints, branch.constraints)];
        runs := runs + [Exec(branches[i], src, Now(), pos + [i], env)];
      }
      AllBranches(branches, src, Now(), pos, env, runs);
    }

    /** Aggregation in branch order; the first halt by index is the block's. */
    method Collect(results: seq<BranchResult>, ghost runs: seq<Run>, pos: Pos) returns (outcome: Outcome)
      requires Results(results, runs)
      modifies this
      ensures var r := Merge(Slots(runs, pos, w), old(Now())); outcome == r.outcome && Did(r)
    {
      var halted := AnyHalted(results, runs, pos);
      ghost var slots, done := Slots(runs, pos, w), Done(Now());
      assert slots[0..] == slots;
      MergeIsQuiet(slots, Now());
      outcome := Outcome.Continue;
      for i := 0 to |results|
        invariant outcome == done.outcome && !outcome.Suspend? && !done.argsModified && !done.resultModified
        invariant SoFar() == Extended(old(SoFar()), done) && done.st == old(Now())
        invariant Merge(slots, old(Now())) == Beside(done, Merge(slots[i..], old(Now())))
      {
        MergeStep(slots, i, done, old(Now()));
        ExtendedJoined(old(SoFar()), done, slots[i]);
        done := Joined(done, slots[i]);
        if halted && w.cancels(pos, i) {
          log := log + slots[i].partial;
        } else {
          taints := taints + results[i].taints;
          constraints := constraints + results[i].constraints;
          log := log + runs[i].log;
          if outcome.Continue? && results[i].outcome.Halt? { outcome := results[i].outcome; }
        }
      }
      assert slots[|results|..] == [];
      BesideNothing(done);
    }

    method AnyHalted(results: seq<BranchResult>, ghost runs: seq<Run>, pos: Pos) returns (halted: bool)
      requires Results(results, runs)
      ensures halted == SomeHalt(runs, pos, w)
    {
      halted := false;
      for i := 0 to |results|
        invariant halted <==> exists j :: 0 <= j < i && !w.cancels(pos, j) && runs[j].outcome.Halt?
      {
        if !w.cancels(pos, i) && results[i].outcome.Halt? { halted := true; }
      }
    }
  }

  /** `evaluate_effects`: a top-level `When` reports its own source, anything else none. */
  method EvaluateEffects(effects: seq<Effect>, bag: Bag, payload: Payload, pos: Pos, phase: Phase, w: World)
    returns (eval: StepsEvaluation, st: State, ghost log: seq<Event>)
    ensures var r := Steps(effects, State(bag, payload), pos, In(phase, w));
      eval == Report(r) && st == r.st
    ensures log == Steps(effects, State(bag, payload), pos, In(phase, w)).log
  {
    var run := new Evaluation(bag, payload, phase, w);
    var decision, pending, i := Allowed, None, 0;
    ghost var env, whole, done := In(phase, w), Steps(effects, run.Now(), pos, In(phase, w)), Done(run.Now());
    assert effects[0..] == effects;
    ThenDone(whole);
    ghost var start := run.SoFar();
    while i < |effects|
      invariant 0 <= i <= |effects| && decision.Allowed? && pending.None? && done.outcome.Continue?
      invariant fresh(run) && run.phase == phase && run.w == w && run.SoFar() == Extended(start, done)
      invariant whole == Then(done, Walk(effects[i..], "", run.Now(), pos, i, env))
    {
      var source := if effects[i].When? then effects[i].source else "";
      ghost var next := Exec(effects[i], source, run.Now(), pos + [i], env);
      WhenKnowsItsSource(effects[i], source, run.Now(), pos + [i], env);
      WalkStep(effects, i, "", done, pos, env);
      ExtendedThen(start, done, next);
      var outcome := run.DispatchEffect(effects[i], source, pos + [i]);
      done := Then(done, next);
      i := i + 1;
      match outcome {
        case Continue =>
        case Halt(d) => decision := d; break;
        case Suspend(bundle) => pending := Some(bundle); break;
      }
    }
    eval := StepsEvaluation(decision, run.taints, run.constraints, run.argsModified, run.resultModified, pending);
    st, log := State(run.bag, run.payload), run.log;
  }

  // ----- lemmas about the loops -----

  /** What a completed branch hands back. */
  datatype BranchResult = BranchResult(outcome: Outcome, taints: seq<TaintEvent>, constraints: seq<CandidateConstraint>)

  ghost predicate Results(results: seq<BranchResult>, runs: seq<Run>)
  {
    |results| == |runs| &&
    forall i :: 0 <= i < |runs| ==> results[i] == BranchResult(runs[i].outcome, runs[i].taints, runs[i].constraints)
  }

  lemma WalkStep(es: seq<Effect>, i: nat, src: string, done: Run, pos: Pos, env: Env)
    requires i < |es| && done.outcome.Continue?
    ensures var r := Exec(es[i], src, done.st, pos + [i], env);
      Then(done, Walk(es[i..], src, done.st, pos, i, env)) ==
      if r.outcome.Continue? then Then(Then(done, r), Walk(es[i + 1..], src, r.st, pos, i + 1, env)) else Then(done, r)
  {
    assert es[i..][0] == es[i] && es[i..][1..] == es[i + 1..];
    var r := Exec(es[i], src, done.st, pos + [i], env);
    ThenAssociative(done, r, Walk(es[i + 1..], src, r.st, pos, i + 1, env));
  }

  lemma WhenKnowsItsSource(e: Effect, source: string, st: State, pos: Pos, env: Env)
    requires source == if e.When? then e.source else ""
    ensures Exec(e, source, st, pos, env) == Exec(e, "", st, pos, env)
  {
  }

  lemma AllBranches(es: seq<Effect>, src: string, st: State, pos: Pos, env: Env, runs: seq<Run>)
    requires |runs| == |es|
    requires forall j: nat :: j < |es| ==> runs[j] == Exec(es[j], src, st, pos + [j], env)
    ensures runs == Branches(es, src, st, pos, 0, env)
  {
    forall j: nat | j < |es| ensures runs[j] == Branches(es, src, st, pos, 0, env)[j] {
      BranchAt(es, src, st, pos, 0, env, j);
    }
  }

  /** Slots collected so far, beside those still to come. */
  ghost function Beside(done: Run, rest: Run): Run
  {
    Run(if done.outcome.Halt? then done.outcome else rest.outcome, rest.st, done.taints + rest.taints,
        done.constraints + rest.constraints, false, false, done.log + rest.log)
  }

  ghost function Joined(done: Run, slot: Slot): Run
  {
    match slot
    case Cancelled(partial) => done.(log := done.log + partial)
    case Completed(r) =>
      Run(if done.outcome.Halt? || !r.outcome.Halt? then done.outcome else r.outcome, done.st,
          done.taints + r.taints, done.constraints + r.constraints, false, false, done.log + r.log)
  }

  lemma ExtendedJoined(t: Trace, done: Run, slot: Slot)
    requires !done.argsModified && !done.resultModified
    ensures var at := Extended(t, done);
      Extended(t, Joined(done, slot)) ==
      match slot
      case Cancelled(partial) => at.(log := at.log + partial)
      case Completed(r) =>
        at.(taints := at.taints + r.taints, constraints := at.constraints + r.constraints, log := at.log + r.log)
  {
    match slot {
      case Cancelled(partial) =>
        assert t.log + (done.log + partial) == t.log + done.log + partial;
      case Completed(r) =>
        assert t.taints + (done.taints + r.taints) == t.taints + done.taints + r.taints;
        assert t.constraints + (done.constraints + r.constraints) == t.constraints + done.constraints + r.constraints;
        assert t.log + (done.log + r.log) == t.log + done.log + r.log;
    }
  }

  lemma BesideNothing(done: Run)
    requires !done.outcome.Suspend? && !done.argsModified && !done.resultModified
    ensures Beside(done, Done(done.st)) == done
  {
  }

  lemma MergeStep(slots: seq<Slot>, i: nat, done: Run, st: State)
    requires i < |slots|
    requires Merge(slots, st) == Beside(done, Merge(slots[i..], st))
    ensures Merge(slots, st) == Beside(Joined(done, slots[i]), Merge(slots[i + 1..], st))
  {
    assert slots[i..][0] == slots[i] && slots[i..][1..] == slots[i + 1..];
    var rest := Merge(slots[i + 1..], st);
    MergeIsQuiet(slots[i + 1..], st);
    match slots[i] {
      case Cancelled(partial) =>
        assert done.log + (partial + rest.log) == done.log + partial + rest.log;
      case Completed(r) =>
        assert done.taints + (r.taints + rest.taints) == done.taints + r.taints + rest.taints;
        assert done.constraints + (r.constraints + rest.constraints) ==
          done.constraints + r.constraints + rest.constraints;
        assert done.log + (r.log + rest.log) == done.log + r.log + rest.log;
    }
  }
}
