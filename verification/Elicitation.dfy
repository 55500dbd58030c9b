/** The elicitation protocol (`dispatch_elicitation` in `evaluator.rs`, the handler mapping in
    `elicitation_invoker.rs`) over whole runs and over the retries of a request. */
module Elicitation {
  import opened Text
  import opened Json
  import opened Ir
  import opened Attributes
  import opened World
  import opened Pipelines
  import opened Runs
  import opened Leaves
  import opened Trees
  import opened Engine
  import opened Grants
  import opened Purity
  import opened Scheduling

  // ----- one question per request -----

  function IdOf(st: State): Option<string> { GetString(st.bag, ELICIT_ID) }

  predicate IsElicit(ev: Event) { ev.ElicitDispatched? || ev.ElicitChecked? || ev.ElicitValidated? }

  predicate NoElicit(log: seq<Event>) { forall i :: 0 <= i < |log| ==> !IsElicit(log[i]) }

  predicate NoDispatch(log: seq<Event>) { forall i :: 0 <= i < |log| ==> !log[i].ElicitDispatched? }

  /** The handler is only asked about `id`. */
  predicate AllAsk(log: seq<Event>, id: string)
  {
    forall i :: 0 <= i < |log| ==>
      (log[i].ElicitChecked? ==> log[i].id == id) && (log[i].ElicitValidated? ==> log[i].id == id)
  }

  predicate NoQuestions(log: seq<Event>)
  {
    forall i :: 0 <= i < |log| ==> !log[i].ElicitChecked? && !log[i].ElicitValidated?
  }

  /** How many dispatches succeeded. */
  function Openings(log: seq<Event>): nat
  {
    if log == [] then 0
    else (if log[0].ElicitDispatched? && log[0].dispatched.Dispatched? then 1 else 0) + Openings(log[1..])
  }

  /** With an id at hand nothing is dispatched and only that id is asked about; without one, either
      nothing is asked at all or exactly one dispatch succeeded and only its id is asked about. */
  predicate OneQuestion(before: Option<string>, after: Option<string>, log: seq<Event>)
  {
    if before.Some? then after == before && NoDispatch(log) && AllAsk(log, before.value)
    else if after.None? then Openings(log) == 0 && NoQuestions(log)
    else Openings(log) == 1 && AllAsk(log, after.value)
  }

  lemma {:induction false} OpeningsConcat(a: seq<Event>, b: seq<Event>)
    ensures Openings(a + b) == Openings(a) + Openings(b)
    decreases |a|
  {
    if a == [] {
      assert a + b == b;
    } else {
      assert (a + b)[1..] == a[1..] + b;
      OpeningsConcat(a[1..], b);
    }
  }

  lemma {:induction false} NoDispatchNoOpening(log: seq<Event>)
    requires NoDispatch(log)
    ensures Openings(log) == 0
  {
    if log != [] { NoDispatchNoOpening(log[1..]); }
  }

  lemma OneQuestionComposes(before: Option<string>, mid: Option<string>, after: Option<string>, a: seq<Event>,
                            b: seq<Event>)
    requires OneQuestion(before, mid, a) && OneQuestion(mid, after, b)
    ensures OneQuestion(before, after, a + b)
  {
    OpeningsConcat(a, b);
    if mid.Some? { NoDispatchNoOpening(b); }
  }

  lemma SilentIsOneQuestion(id: Option<string>, log: seq<Event>)
    requires NoElicit(log)
    ensures OneQuestion(id, id, log)
  {
    NoDispatchNoOpening(log);
  }

  predicate AsksOnce(r: Run, st: State) { OneQuestion(IdOf(st), IdOf(r.st), r.log) }

  ghost predicate Disciplined(env: Env)
  {
    && (forall e, src, st, pos :: IsLeaf(e) ==> AsksOnce(env.leaf(e, src, st, pos), st))
    && (forall e, src, st, pos :: IsLeaf(e) && !Mutates(e) ==> NoElicit(env.leaf(e, src, st, pos).log))
  }

  // Pure effects do not elicit, completed or cancelled.

  lemma {:induction false} PureIsSilent(e: Effect, src: string, st: State, pos: Pos, env: Env)
    requires Disciplined(env) && !ContainsMutation(e)
    ensures NoElicit(Exec(e, src, st, pos, env).log)
    decreases e
  {
    match e
    case Sequential(body) => PureListIsSilent(body, src, st, pos, 0, env);
    case Parallel(branches) => BlockIsSilent(branches, src, st, pos, env);
    case When(_, body, source) => PureListIsSilent(body, source, st, pos, 0, env);
    case Pdp(_, onAllow, onDeny) =>
      PureListIsSilent(onAllow, src, st, pos + [0], 0, env);
      PureListIsSilent(onDeny, src, st, pos + [1], 0, env);
    case _ =>
  }

  lemma {:induction false} PureListIsSilent(es: seq<Effect>, src: string, st: State, pos: Pos, k: nat, env: Env)
    requires Disciplined(env) && !AnyMutation(es)
    ensures NoElicit(Walk(es, src, st, pos, k, env).log)
    decreases es
  {
    if es != [] {
      PureIsSilent(es[0], src, st, pos + [k], env);
      PureListIsSilent(es[1..], src, Exec(es[0], src, st, pos + [k], env).st, pos, k + 1, env);
    }
  }

  lemma {:induction false} BlockIsSilent(es: seq<Effect>, src: string, st: State, pos: Pos, env: Env)
    requires Disciplined(env) && !AnyMutation(es)
    ensures NoElicit(Exec(Parallel(es), src, st, pos, env).log)
    decreases es, 1
  {
    var rs := Branches(es, src, st, pos, 0, env);
    AnyMutationIndex(es);
    forall i | 0 <= i < |es| ensures NoElicit(rs[i].log) {
      BranchAt(es, src, st, pos, 0, env, i);
      PureIsSilent(es[i], src, st, pos + [i], env);
    }
    SlotsAreSilent(rs, pos, env.w, st);
  }

  lemma SlotsAreSilent(rs: seq<Run>, pos: Pos, w: World, st: State)
    requires forall i :: 0 <= i < |rs| ==> NoElicit(rs[i].log)
    ensures NoElicit(Merge(Slots(rs, pos, w), st).log)
  {
    var slots := Slots(rs, pos, w);
    SlotsArePartial(rs, pos, w);
    forall i | 0 <= i < |slots|
      ensures NoElicit(if slots[i].Completed? then slots[i].run.log else slots[i].partial)
    {
      if slots[i].Cancelled? { PartIsSilent(slots[i].partial, rs[i].log); }
    }
    MergeIsSilent(slots, st);
  }

  lemma PartIsSilent(part: seq<Event>, log: seq<Event>)
    requires IsPart(part, log) && NoElicit(log)
    ensures NoElicit(part)
  {
    PartIsThere(part, log);
    forall i | 0 <= i < |part| ensures !IsElicit(part[i]) { assert part[i] in log; }
  }

  lemma {:induction false} MergeIsSilent(slots: seq<Slot>, st: State)
    requires forall i :: 0 <= i < |slots| ==>
      NoElicit(if slots[i].Completed? then slots[i].run.log else slots[i].partial)
    ensures NoElicit(Merge(slots, st).log)
  {
    if slots != [] { MergeIsSilent(slots[1..], st); }
  }

  // Validated trees ask at most one question.

  lemma {:induction false} CleanAsksOnce(e: Effect, src: string, st: State, pos: Pos, env: Env)
    requires Disciplined(env) && Clean(e)
    ensures AsksOnce(Exec(e, src, st, pos, env), st)
    decreases e
  {
    if IsLeaf(e) { return; }
    CleanChildren(e);
    match e
    case Sequential(body) => CleanListAsksOnce(body, src, st, pos, 0, env);
    case Parallel(branches) =>
      AnyMutationIndex(branches);
      BlockIsSilent(branches, src, st, pos, env);
      MergeIsQuiet(Slots(Branches(branches, src, st, pos, 0, env), pos, env.w), st);
      SilentIsOneQuestion(IdOf(st), Exec(e, src, st, pos, env).log);
    case When(_, body, source) =>
      CleanListAsksOnce(body, source, st, pos, 0, env);
      SilentIsOneQuestion(IdOf(st), []);
    case Pdp(call, onAllow, onDeny) =>
      assert AllClean(onAllow) by { assert forall i :: 0 <= i < |onAllow| ==> Children(e)[i] == onAllow[i]; }
      assert AllClean(onDeny) by {
        assert forall i :: 0 <= i < |onDeny| ==> Children(e)[|onAllow| + i] == onDeny[i];
      }
      CleanListAsksOnce(onAllow, src, st, pos + [0], 0, env);
      CleanListAsksOnce(onDeny, src, st, pos + [1], 0, env);
      var called := [PdpCalled(pos, call, env.w.pdp(pos, call, st.bag))];
      SilentIsOneQuestion(IdOf(st), called);
      SilentIsOneQuestion(IdOf(st), []);
      var r := Exec(e, src, st, pos, env);
      OneQuestionComposes(IdOf(st), IdOf(st), IdOf(r.st), called, r.log[1..]);
      assert called + r.log[1..] == r.log;
  }

  lemma {:induction false} CleanListAsksOnce(es: seq<Effect>, src: string, st: State, pos: Pos, k: nat, env: Env)
    requires Disciplined(env) && AllClean(es)
    ensures AsksOnce(Walk(es, src, st, pos, k, env), st)
    decreases es
  {
    if es == [] {
      SilentIsOneQuestion(IdOf(st), []);
    } else {
      var r := Exec(es[0], src, st, pos + [k], env);
      CleanAsksOnce(es[0], src, st, pos + [k], env);
      if r.outcome.Continue? {
        CleanListAsksOnce(es[1..], src, r.st, pos, k + 1, env);
        var rest := Walk(es[1..], src, r.st, pos, k + 1, env);
        OneQuestionComposes(IdOf(st), IdOf(r.st), IdOf(rest.st), r.log, rest.log);
      }
    }
  }

  // ----- the engine's single-step effects -----

  lemma OpenedHasId(bag: Bag, step: ElicitStep, id: string, a: Option<string>, n: Option<string>, x: Option<string>)
    ensures GetString(OpenedBag(bag, step, id, a, n, x), ELICIT_ID) == Some(id)
  {
    QuestionIsReadable(step, bag, id, a, n, x);
  }

  lemma GrantKeepsId(bag: Bag, permissions: seq<string>, a: Option<string>, x: Option<string>)
    ensures GetString(GrantBag(bag, permissions, a, x), ELICIT_ID) == GetString(bag, ELICIT_ID)
  {
    KeysDiffer();
  }

  /** Nothing is dispatched, only `id` is asked about, and the id stays in the bag. */
  predicate Follows(r: Run, id: string)
  {
    IdOf(r.st) == Some(id) && NoDispatch(r.log) && AllAsk(r.log, id)
  }

  lemma ValidateFollows(step: ElicitStep, id: string, st: State, pos: Pos, phase: Phase, w: World)
    requires IdOf(st) == Some(id)
    ensures Follows(ValidateRun(step, id, st, pos, phase, w), id)
  {
    KeysDiffer();
  }

  lemma CheckFollows(step: ElicitStep, id: string, st: State, pos: Pos, phase: Phase, w: World)
    requires IdOf(st) == Some(id)
    ensures Follows(CheckRun(step, id, st, pos, phase, w), id)
  {
    KeysDiffer();
    ValidateFollows(step, id, st, pos, phase, w);
  }

  lemma ElicitAsksOnce(step: ElicitStep, st: State, pos: Pos, phase: Phase, w: World)
    ensures AsksOnce(ElicitRun(step, st, pos, phase, w), st)
  {
    var from := ResolveFrom(step, st.bag);
    if from.Some? && IdOf(st).Some? {
      CheckFollows(step, IdOf(st).value, st, pos, phase, w);
    } else if from.Some? {
      var answer := w.dispatch(pos, step, from.value);
      var ev := ElicitDispatched(pos, step, answer);
      assert [ev][1..] == [];
      if answer.Dispatched? {
        OpenedHasId(st.bag, step, answer.id, answer.approver, answer.intentId, answer.expiresAt);
        var st1 := st.(bag := OpenedBag(st.bag, step, answer.id, answer.approver, answer.intentId, answer.expiresAt));
        CheckFollows(step, answer.id, st1, pos, phase, w);
        var r := CheckRun(step, answer.id, st1, pos, phase, w);
        OneQuestionComposes(None, Some(answer.id), Some(answer.id), [ev], r.log);
      }
    }
  }

  lemma {:induction false} FlowIsSilent(stages: seq<Stage>, base: nat, v: Json, changed: bool, c: Site)
    ensures NoElicit(Flow(stages, base, v, changed, At(c)).log)
    decreases |stages|
  {
    if stages != [] {
      var s := At(c)(stages[0], v, base);
      assert NoElicit(s.log);
      if s.Go? { FlowIsSilent(stages[1..], base + 1, s.value, changed || s.changed, c); }
    }
  }

  lemma EditIsSilent(root: Json, field: string, stages: seq<Stage>, site: Site)
    ensures NoElicit(EditField(root, field, stages, site).log)
  {
    var current := Get(root, Segments(field));
    if current.Some? { FlowIsSilent(stages, 0, current.value, false, site); }
  }

  lemma FieldOpAsksOnce(path: string, stages: seq<Stage>, src: string, st: State, pos: Pos, phase: Phase, w: World)
    ensures AsksOnce(FieldOpRun(path, stages, src, st, pos, phase, w), st)
  {
    var args, result := StripPrefix(path, ARGS_PREFIX), StripPrefix(path, RESULT_PREFIX);
    if args.Some? {
      EditIsSilent(st.payload.args, args.value, stages, Site(st.bag, args.value, phase, pos, w));
    } else if result.Some? && st.payload.result.Some? {
      EditIsSilent(st.payload.result.value, result.value, stages, Site(st.bag, result.value, phase, pos, w));
    }
    var r := FieldOpRun(path, stages, src, st, pos, phase, w);
    assert NoElicit(r.log) && r.st.bag == st.bag;
    SilentIsOneQuestion(IdOf(st), r.log);
  }

  lemma PureLeafIsSilent(e: Effect, src: string, st: State, pos: Pos, phase: Phase, w: World)
    requires IsLeaf(e) && !Mutates(e)
    ensures NoElicit(LeafRun(e, src, st, pos, phase, w).log)
  {
  }

  lemma LeafAsksOnce(e: Effect, src: string, st: State, pos: Pos, phase: Phase, w: World)
    requires IsLeaf(e)
    ensures AsksOnce(LeafRun(e, src, st, pos, phase, w), st)
  {
    if e.Elicit? {
      ElicitAsksOnce(e.step, st, pos, phase, w);
    } else if e.FieldOp? {
      FieldOpAsksOnce(e.path, e.stages, src, st, pos, phase, w);
    } else if e.Delegate? {
      DelegateAsksOnce(e.delegation, st, pos, phase, w);
    } else {
      PureLeafIsSilent(e, src, st, pos, phase, w);
      LeafQuiet(e, src, st, pos, phase, w);
      SilentIsOneQuestion(IdOf(st), LeafRun(e, src, st, pos, phase, w).log);
    }
  }

  lemma DelegateAsksOnce(d: DelegateStep, st: State, pos: Pos, phase: Phase, w: World)
    ensures AsksOnce(DelegateRun(d, st, pos, phase, w), st)
  {
    var answer := w.delegate(pos, d);
    if answer.DelegateOk? { GrantKeepsId(st.bag, answer.permissions, answer.audience, answer.expiresAt); }
    var r := DelegateRun(d, st, pos, phase, w);
    assert r.log == [DelegateCalled(pos, d, answer)];
    SilentIsOneQuestion(IdOf(st), r.log);
  }

  lemma EngineDisciplined(phase: Phase, w: World)
    ensures Disciplined(In(phase, w))
  {
    var env := In(phase, w);
    forall e, src, st, pos | IsLeaf(e) ensures AsksOnce(env.leaf(e, src, st, pos), st) {
      LeafAsksOnce(e, src, st, pos, phase, w);
    }
    forall e, src, st, pos | IsLeaf(e) && !Mutates(e) ensures NoElicit(env.leaf(e, src, st, pos).log) {
      PureLeafIsSilent(e, src, st, pos, phase, w);
    }
  }

  // ----- the id that is handed out -----

  /** The pending bundle names the question whose id the run leaves in the bag. */
  predicate HandsOut(r: Run) { r.outcome.Suspend? ==> IdOf(r.st) == Some(r.outcome.pending.id) }

  ghost predicate LeavesHandOut(env: Env)
  {
    forall e, src, st, pos :: IsLeaf(e) ==> HandsOut(env.leaf(e, src, st, pos))
  }

  lemma {:induction false} ExecHandsOut(e: Effect, src: string, st: State, pos: Pos, env: Env)
    requires LeavesHandOut(env)
    ensures HandsOut(Exec(e, src, st, pos, env))
    decreases e
  {
    match e
    case Sequential(body) => WalkHandsOut(body, src, st, pos, 0, env);
    case Parallel(branches) => MergeNeverSuspends(Slots(Branches(branches, src, st, pos, 0, env), pos, env.w), st);
    case When(_, body, source) => WalkHandsOut(body, source, st, pos, 0, env);
    case Pdp(_, onAllow, onDeny) =>
      WalkHandsOut(onAllow, src, st, pos + [0], 0, env);
      WalkHandsOut(onDeny, src, st, pos + [1], 0, env);
    case _ =>
  }

  lemma {:induction false} WalkHandsOut(es: seq<Effect>, src: string, st: State, pos: Pos, k: nat, env: Env)
    requires LeavesHandOut(env)
    ensures HandsOut(Walk(es, src, st, pos, k, env))
    decreases es
  {
    if es != [] {
      ExecHandsOut(es[0], src, st, pos + [k], env);
      WalkHandsOut(es[1..], src, Exec(es[0], src, st, pos + [k], env).st, pos, k + 1, env);
    }
  }

  lemma {:induction false} MergeNeverSuspends(slots: seq<Slot>, st: State)
    ensures !Merge(slots, st).outcome.Suspend?
  {
    if slots != [] { MergeNeverSuspends(slots[1..], st); }
  }

  lemma CheckHandsOut(step: ElicitStep, id: string, st: State, pos: Pos, phase: Phase, w: World)
    requires IdOf(st) == Some(id)
    ensures HandsOut(CheckRun(step, id, st, pos, phase, w))
  {
    CheckFollows(step, id, st, pos, phase, w);
    assert !ValidateRun(step, id, st, pos, phase, w).outcome.Suspend?;
  }

  lemma ElicitHandsOut(step: ElicitStep, st: State, pos: Pos, phase: Phase, w: World)
    ensures HandsOut(ElicitRun(step, st, pos, phase, w))
  {
    var from := ResolveFrom(step, st.bag);
    if from.Some? && IdOf(st).Some? {
      CheckHandsOut(step, IdOf(st).value, st, pos, phase, w);
    } else if from.Some? {
      var answer := w.dispatch(pos, step, from.value);
      if answer.Dispatched? {
        var bag := OpenedBag(st.bag, step, answer.id, answer.approver, answer.intentId, answer.expiresAt);
        OpenedHasId(st.bag, step, answer.id, answer.approver, answer.intentId, answer.expiresAt);
        CheckHandsOut(step, answer.id, st.(bag := bag), pos, phase, w);
      }
    }
  }

  lemma LeafHandsOut(e: Effect, src: string, st: State, pos: Pos, phase: Phase, w: World)
    requires IsLeaf(e)
    ensures HandsOut(LeafRun(e, src, st, pos, phase, w))
  {
    if e.Elicit? { ElicitHandsOut(e.step, st, pos, phase, w); }
  }

  lemma EngineHandsOut(phase: Phase, w: World)
    ensures LeavesHandOut(In(phase, w))
  {
    forall e, src, st, pos | IsLeaf(e) ensures HandsOut(In(phase, w).leaf(e, src, st, pos)) {
      LeafHandsOut(e, src, st, pos, phase, w);
    }
  }

  // ----- over the passes of a request -----

  /** One arrival of the request: what it brought and the world it met. */
  datatype Pass = Pass(st: State, w: World)

  function PassRun(es: seq<Effect>, phase: Phase, p: Pass): Run { Steps(es, p.st, [], In(phase, p.w)) }

  /** The id the caller is given: only a suspended pass hands one out. */
  function HandedOut(r: Run): Option<string> { if r.outcome.Suspend? then Some(r.outcome.pending.id) else None }

  /** Retries echo the id that an earlier pass handed out. */
  ghost predicate Echoes(es: seq<Effect>, phase: Phase, passes: seq<Pass>)
  {
    forall j, k :: 0 <= j < k < |passes| && HandedOut(PassRun(es, phase, passes[j])).Some? ==>
      IdOf(passes[k].st) == HandedOut(PassRun(es, phase, passes[j]))
  }

  function TotalOpenings(es: seq<Effect>, phase: Phase, passes: seq<Pass>): nat
  {
    if passes == [] then 0
    else Openings(PassRun(es, phase, passes[0]).log) + TotalOpenings(es, phase, passes[1..])
  }

  predicate Opens(es: seq<Effect>, phase: Phase, p: Pass) { Openings(PassRun(es, phase, p).log) > 0 }

  lemma PassAsksOnce(es: seq<Effect>, phase: Phase, p: Pass)
    requires AllClean(es)
    ensures AsksOnce(PassRun(es, phase, p), p.st) && HandsOut(PassRun(es, phase, p))
    ensures Openings(PassRun(es, phase, p).log) <= 1
    ensures IdOf(p.st).Some? ==> !Opens(es, phase, p)
  {
    EngineDisciplined(phase, p.w);
    CleanListAsksOnce(es, "", p.st, [], 0, In(phase, p.w));
    EngineHandsOut(phase, p.w);
    WalkHandsOut(es, "", p.st, [], 0, In(phase, p.w));
    if IdOf(p.st).Some? { NoDispatchNoOpening(PassRun(es, phase, p).log); }
  }

  /** A suspended pass has asked about no other question than the one it hands out; and from then on
      nothing is dispatched, and every status check and validation of every pass concerns that question. */
  lemma OneQuestionOnceSuspended(es: seq<Effect>, phase: Phase, passes: seq<Pass>, j: nat, k: nat)
    requires AllClean(es) && Echoes(es, phase, passes) && j <= k < |passes|
    requires PassRun(es, phase, passes[j]).outcome.Suspend?
    ensures var id := PassRun(es, phase, passes[j]).outcome.pending.id;
      && AllAsk(PassRun(es, phase, passes[k]).log, id)
      && (j < k ==> NoDispatch(PassRun(es, phase, passes[k]).log))
      && (PassRun(es, phase, passes[k]).outcome.Suspend? ==> PassRun(es, phase, passes[k]).outcome.pending.id == id)
  {
    PassAsksOnce(es, phase, passes[j]);
    PassAsksOnce(es, phase, passes[k]);
    assert HandedOut(PassRun(es, phase, passes[j])).Some?;
  }

  lemma {:induction false} NoneOpens(es: seq<Effect>, phase: Phase, passes: seq<Pass>)
    requires forall k :: 0 <= k < |passes| ==> !Opens(es, phase, passes[k])
    ensures TotalOpenings(es, phase, passes) == 0
    decreases |passes|
  {
    if passes != [] { NoneOpens(es, phase, passes[1..]); }
  }

  /** After a pass that suspended nothing more is opened. */
  lemma SuspendedIsLast(es: seq<Effect>, phase: Phase, p: Pass, rest: seq<Pass>)
    requires AllClean(es) && Echoes(es, phase, [p] + rest) && PassRun(es, phase, p).outcome.Suspend?
    ensures TotalOpenings(es, phase, rest) == 0
  {
    var passes := [p] + rest;
    assert HandedOut(PassRun(es, phase, passes[0])).Some?;
    forall k | 0 <= k < |rest| ensures !Opens(es, phase, rest[k]) {
      assert passes[k + 1] == rest[k];
      PassAsksOnce(es, phase, rest[k]);
    }
    NoneOpens(es, phase, rest);
  }

  /** Whatever retries follow, as long as they echo what they were handed. */
  ghost predicate NeverAsksAgain(es: seq<Effect>, phase: Phase, p: Pass)
  {
    forall rest :: Echoes(es, phase, [p] + rest) ==> TotalOpenings(es, phase, [p] + rest) <= 1
  }

  /** A pass that opened a question is the only one that ever will, whatever its retries, exactly when it
      suspended: its one answer tells. */
  lemma OnlyOpeningExactlyWhen(es: seq<Effect>, phase: Phase, p: Pass)
    requires AllClean(es) && Opens(es, phase, p)
    ensures NeverAsksAgain(es, phase, p) <==> PassRun(es, phase, p).outcome.Suspend?
  {
    PassAsksOnce(es, phase, p);
    if PassRun(es, phase, p).outcome.Suspend? {
      forall rest | Echoes(es, phase, [p] + rest) ensures TotalOpenings(es, phase, [p] + rest) <= 1 {
        SuspendedIsLast(es, phase, p, rest);
        assert ([p] + rest)[1..] == rest;
      }
    } else {
      var again := [p] + [p];
      assert Echoes(es, phase, again) by { assert forall k :: 0 <= k < |again| ==> again[k] == p; }
      assert again[1..] == [p] && [p][1..] == [];
      assert TotalOpenings(es, phase, [p]) == Openings(PassRun(es, phase, p).log);
    }
  }

  lemma EchoesTail(es: seq<Effect>, phase: Phase, passes: seq<Pass>)
    requires passes != [] && Echoes(es, phase, passes)
    ensures Echoes(es, phase, passes[1..])
  {
    assert forall k :: 0 <= k < |passes| - 1 ==> passes[1..][k] == passes[k + 1];
  }

  /** So over a sequence of passes at most one dispatch succeeds if every pass that opened suspended. */
  lemma {:induction false} AtMostOneOpening(es: seq<Effect>, phase: Phase, passes: seq<Pass>)
    requires AllClean(es) && Echoes(es, phase, passes)
    requires forall k :: 0 <= k < |passes| && Opens(es, phase, passes[k]) ==>
      PassRun(es, phase, passes[k]).outcome.Suspend?
    ensures TotalOpenings(es, phase, passes) <= 1
    decreases |passes|
  {
    if passes != [] {
      var p, rest := passes[0], passes[1..];
      PassAsksOnce(es, phase, p);
      assert passes == [p] + rest;
      if Opens(es, phase, p) {
        SuspendedIsLast(es, phase, p, rest);
      } else {
        EchoesTail(es, phase, passes);
        AtMostOneOpening(es, phase, rest);
      }
    }
  }

  /** A pass that opened and did not suspend does happen: the dispatch succeeds but the status check
      fails, so the pass is denied and its id stays behind; the retry, which could not echo it, asks a
      second time. */
  lemma SecondDispatch(step: ElicitStep, phase: Phase, p: Pass)
    requires ResolveFrom(step, p.st.bag).Some? && IdOf(p.st).None? && !Continues(step.onError)
    requires var answer := p.w.dispatch([0], step, ResolveFrom(step, p.st.bag).value);
      answer.Dispatched? && p.w.check([0], step, answer.id).CheckErr?
    ensures AllClean([Elicit(step)]) && Echoes([Elicit(step)], phase, [p, p])
    ensures PassRun([Elicit(step)], phase, p).outcome.Halt?
    ensures TotalOpenings([Elicit(step)], phase, [p, p]) == 2
  {
    var es, r := [Elicit(step)], PassRun([Elicit(step)], phase, p);
    UncheckedIsDenied(step, p.st, [0], phase, p.w);
    var at: Pos := [];
    assert at + [0] == [0];
    assert r == Exec(es[0], "", p.st, [0], In(phase, p.w));
    assert [p, p][1..] == [p] && [p][1..] == [];
    assert TotalOpenings(es, phase, [p]) == 1;
  }

  lemma UncheckedIsDenied(step: ElicitStep, st: State, pos: Pos, phase: Phase, w: World)
    requires ResolveFrom(step, st.bag).Some? && IdOf(st).None? && !Continues(step.onError)
    requires var answer := w.dispatch(pos, step, ResolveFrom(step, st.bag).value);
      answer.Dispatched? && w.check(pos, step, answer.id).CheckErr?
    ensures var r := ElicitRun(step, st, pos, phase, w); r.outcome.Halt? && Openings(r.log) == 1
  {
    var answer := w.dispatch(pos, step, ResolveFrom(step, st.bag).value);
    var checked := [ElicitChecked(pos, step, answer.id, w.check(pos, step, answer.id))];
    var r := ElicitRun(step, st, pos, phase, w);
    assert r.log == [ElicitDispatched(pos, step, answer)] + checked;
    NoDispatchNoOpening(checked);
    OpeningsConcat([ElicitDispatched(pos, step, answer)], checked);
  }

  // ----- several approvers -----

  /** A step contacts the approver it names exactly when there is no id in the bag yet: neither the
      request brought one nor an earlier step's dispatch left one. */
  lemma ContactsExactlyWhen(step: ElicitStep, st: State, pos: Pos, phase: Phase, w: World)
    ensures NoDispatch(ElicitRun(step, st, pos, phase, w).log) <==>
      ResolveFrom(step, st.bag).None? || IdOf(st).Some?
  {
    var from := ResolveFrom(step, st.bag);
    if from.Some? && IdOf(st).Some? {
      CheckFollows(step, IdOf(st).value, st, pos, phase, w);
    } else if from.Some? {
      var answer := w.dispatch(pos, step, from.value);
      assert ElicitRun(step, st, pos, phase, w).log[0] == ElicitDispatched(pos, step, answer);
    }
  }

  /** The approver of a second step is contacted exactly when the first, having been passed, left no id:
      its `from` did not resolve or its dispatch failed, and `on_error` said to go on. */
  lemma SecondApproverContactedExactlyWhen(a: ElicitStep, b: ElicitStep, st: State, p: Pos, q: Pos, phase: Phase,
                                           w: World)
    requires var r := ElicitRun(a, st, p, phase, w); r.outcome.Continue? && ResolveFrom(b, r.st.bag).Some?
    ensures var r := ElicitRun(a, st, p, phase, w);
      NoDispatch(ElicitRun(b, r.st, q, phase, w).log) <==>
        || IdOf(st).Some?
        || (ResolveFrom(a, st.bag).Some? && w.dispatch(p, a, ResolveFrom(a, st.bag).value).Dispatched?)
  {
    var r, from := ElicitRun(a, st, p, phase, w), ResolveFrom(a, st.bag);
    ElicitAsksOnce(a, st, p, phase, w);
    ContactsExactlyWhen(b, r.st, q, phase, w);
    if IdOf(st).None? && from.Some? {
      var answer := w.dispatch(p, a, from.value);
      if answer.Dispatched? {
        var bag := OpenedBag(st.bag, a, answer.id, answer.approver, answer.intentId, answer.expiresAt);
        OpenedHasId(st.bag, a, answer.id, answer.approver, answer.intentId, answer.expiresAt);
        CheckFollows(a, answer.id, st.(bag := bag), p, phase, w);
      }
    }
  }

  /** What the invoker hands to a handler when it checks and validates does not name the approver. */
  ghost predicate Anonymous(w: World)
  {
    forall pos, step: ElicitStep, from, id ::
      && w.check(pos, step.(from := from), id) == w.check(pos, step, id)
      && w.validate(pos, step.(from := from), id) == w.validate(pos, step, id)
  }

  /** With an id at hand it makes no difference whom a step names: any two names that resolve are let
      through, refused or kept waiting alike. */
  lemma AnyNameWillDo(step: ElicitStep, from: string, st: State, pos: Pos, phase: Phase, w: World)
    requires Anonymous(w) && IdOf(st).Some?
    requires ResolveFrom(step, st.bag).Some? && ResolveFrom(step.(from := from), st.bag).Some?
    ensures ElicitRun(step.(from := from), st, pos, phase, w).outcome == ElicitRun(step, st, pos, phase, w).outcome
    ensures ElicitRun(step.(from := from), st, pos, phase, w).st == ElicitRun(step, st, pos, phase, w).st
  {
    var other, id := step.(from := from), IdOf(st).value;
    assert w.check(pos, other, id) == w.check(pos, step, id) && w.validate(pos, other, id) == w.validate(pos, step, id);
    SameValidation(step, other, id, st, pos, phase, w);
  }

  lemma SameValidation(step: ElicitStep, other: ElicitStep, id: string, st: State, pos: Pos, phase: Phase, w: World)
    requires other == step.(from := other.from) && w.validate(pos, other, id) == w.validate(pos, step, id)
    ensures var r, q := ValidateRun(other, id, st, pos, phase, w), ValidateRun(step, id, st, pos, phase, w);
      r.outcome == q.outcome && r.st == q.st
  {
  }
}
