/** What it takes to get past an elicitation step: the step itself (`dispatch_elicitation` in
    `evaluator.rs`) and the reading of handler output (`check` and `validate` in
    `elicitation_invoker.rs`). */
module Approvals {
  import opened Text
  import opened Ir
  import opened Attributes
  import opened World
  import opened Runs
  import opened Leaves
  import opened Trees
  import opened Engine
  import opened Purity
  import opened FailClosed
  import PredParser

  /** The question a step is about and the bag it is asked in: the echoed id, or a fresh one. */
  function Question(step: ElicitStep, bag: Bag, pos: Pos, w: World): Option<(string, Bag)>
  {
    var from, id := ResolveFrom(step, bag), GetString(bag, ELICIT_ID);
    if from.None? then None
    else if id.Some? then Some((id.value, bag))
    else match w.dispatch(pos, step, from.value)
      case DispatchErr(_) => None
      case Dispatched(minted, approver, intentId, expiresAt) =>
        Some((minted, OpenedBag(bag, step, minted, approver, intentId, expiresAt)))
  }

  predicate ScopeHolds(step: ElicitStep, bag: Bag, host: Host)
  {
    step.scope.None? ||
    (var e := PredParser.ParsePredicate(step.scope.value); e.Some? && Eval(e.value, bag, host))
  }

  /** Resolved as approved, found genuine, and covering this very request. */
  predicate Approved(step: ElicitStep, bag: Bag, pos: Pos, w: World)
  {
    var q := Question(step, bag, pos, w);
    && q.Some?
    && w.check(pos, step, q.value.0) == Checked(StatusResolved(true))
    && w.validate(pos, step, q.value.0).Validated? && w.validate(pos, step, q.value.0).valid
    && ScopeHolds(step, q.value.1, w.host)
  }

  lemma CheckPassed(step: ElicitStep, id: string, st: State, pos: Pos, phase: Phase, w: World)
    requires !Continues(step.onError)
    ensures CheckRun(step, id, st, pos, phase, w).outcome.Continue? <==>
      && w.check(pos, step, id) == Checked(StatusResolved(true))
      && w.validate(pos, step, id).Validated? && w.validate(pos, step, id).valid
      && ScopeHolds(step, st.bag, w.host)
  {
    assert ScopeFault(step, st.bag, w.host).None? <==> ScopeHolds(step, st.bag, w.host);
  }

  /** A step without `on_error: continue` is passed exactly when it is approved. */
  lemma PassedIffApproved(step: ElicitStep, st: State, pos: Pos, phase: Phase, w: World)
    requires !Continues(step.onError)
    ensures ElicitRun(step, st, pos, phase, w).outcome.Continue? <==> Approved(step, st.bag, pos, w)
  {
    var q := Question(step, st.bag, pos, w);
    if q.Some? { CheckPassed(step, q.value.0, st.(bag := q.value.1), pos, phase, w); }
  }

  /** A remark: whatever `on_error` says, an open question suspends with the id to echo, and a refusal halts. */
  lemma StatusIsBinding(step: ElicitStep, st: State, pos: Pos, phase: Phase, w: World)
    requires Question(step, st.bag, pos, w).Some?
    ensures var (id, _) := Question(step, st.bag, pos, w).value;
      var r := ElicitRun(step, st, pos, phase, w);
      && (w.check(pos, step, id) == Checked(StatusPending) <==> r.outcome.Suspend?)
      && (r.outcome.Suspend? ==> r.outcome.pending.id == id)
      && (w.check(pos, step, id) == Checked(StatusResolved(false)) ==>
            r.outcome == Halt(Denied(Some(ElicitRefused), step.source)))
  {
  }

  // ----- every step a phase reaches -----

  /** An elicitation step that a run came to, on this bag and at this place. */
  datatype Visit = Visit(step: ElicitStep, bag: Bag, pos: Pos)

  function Visits(e: Effect, src: string, st: State, pos: Pos, env: Env): seq<Visit>
  {
    match e
    case Elicit(step) => [Visit(step, st.bag, pos)]
    case Sequential(body) => VisitsIn(body, src, st, pos, 0, env)
    case Parallel(branches) => VisitsAcross(branches, src, st, pos, 0, env)
    case When(condition, body, source) =>
      if env.holds(condition, st.bag) then VisitsIn(body, source, st, pos, 0, env) else []
    case Pdp(call, onAllow, onDeny) =>
      (match env.w.pdp(pos, call, st.bag)
       case PdpErr(_) => []
       case PdpOk(Allowed) => VisitsIn(onAllow, src, st, pos + [0], 0, env)
       case PdpOk(_) => VisitsIn(onDeny, src, st, pos + [1], 0, env))
    case _ => []
  }

  function VisitsIn(es: seq<Effect>, src: string, st: State, pos: Pos, k: nat, env: Env): seq<Visit>
  {
    if es == [] then []
    else
      var r := Exec(es[0], src, st, pos + [k], env);
      Visits(es[0], src, st, pos + [k], env)
      + (if r.outcome.Continue? then VisitsIn(es[1..], src, r.st, pos, k + 1, env) else [])
  }

  function VisitsAcross(es: seq<Effect>, src: string, st: State, pos: Pos, k: nat, env: Env): seq<Visit>
  {
    if es == [] then []
    else Visits(es[0], src, st, pos + [k], env) + VisitsAcross(es[1..], src, st, pos, k + 1, env)
  }

  /** Each visited step without `on_error: continue` is approved. */
  predicate AllApproved(vs: seq<Visit>, w: World)
  {
    forall i :: 0 <= i < |vs| && !Continues(vs[i].step.onError) ==> Approved(vs[i].step, vs[i].bag, vs[i].pos, w)
  }

  /** Going past such a step takes an approval. */
  ghost predicate Gated(env: Env)
  {
    forall step: ElicitStep, src, st, pos ::
      !Continues(step.onError) && env.leaf(Elicit(step), src, st, pos).outcome.Continue? ==>
      Approved(step, st.bag, pos, env.w)
  }

  lemma {:induction false} PureVisitsNothing(e: Effect, src: string, st: State, pos: Pos, env: Env)
    requires !ContainsMutation(e)
    ensures Visits(e, src, st, pos, env) == []
    decreases e
  {
    match e
    case Sequential(body) => PureListVisitsNothing(body, src, st, pos, 0, env);
    case Parallel(branches) => PureBlockVisitsNothing(branches, src, st, pos, 0, env);
    case When(_, body, source) => PureListVisitsNothing(body, source, st, pos, 0, env);
    case Pdp(_, onAllow, onDeny) =>
      PureListVisitsNothing(onAllow, src, st, pos + [0], 0, env);
      PureListVisitsNothing(onDeny, src, st, pos + [1], 0, env);
    case _ =>
  }

  lemma {:induction false} PureListVisitsNothing(es: seq<Effect>, src: string, st: State, pos: Pos, k: nat, env: Env)
    requires !AnyMutation(es)
    ensures VisitsIn(es, src, st, pos, k, env) == []
    decreases es
  {
    if es != [] {
      PureVisitsNothing(es[0], src, st, pos + [k], env);
      PureListVisitsNothing(es[1..], src, Exec(es[0], src, st, pos + [k], env).st, pos, k + 1, env);
    }
  }

  lemma {:induction false} PureBlockVisitsNothing(es: seq<Effect>, src: string, st: State, pos: Pos, k: nat, env: Env)
    requires !AnyMutation(es)
    ensures VisitsAcross(es, src, st, pos, k, env) == []
    decreases es
  {
    if es != [] {
      PureVisitsNothing(es[0], src, st, pos + [k], env);
      PureBlockVisitsNothing(es[1..], src, st, pos, k + 1, env);
    }
  }

  lemma {:induction false} CleanIsApproved(e: Effect, src: string, st: State, pos: Pos, env: Env)
    requires Gated(env) && Clean(e) && Exec(e, src, st, pos, env).outcome.Continue?
    ensures AllApproved(Visits(e, src, st, pos, env), env.w)
    decreases e
  {
    if IsLeaf(e) { return; }
    CleanChildren(e);
    match e
    case Sequential(body) => CleanListIsApproved(body, src, st, pos, 0, env);
    case Parallel(branches) =>
      AnyMutationIndex(branches);
      PureBlockVisitsNothing(branches, src, st, pos, 0, env);
    case When(condition, body, source) =>
      if env.holds(condition, st.bag) { CleanListIsApproved(body, source, st, pos, 0, env); }
    case Pdp(call, onAllow, onDeny) =>
      assert AllClean(onAllow) by { assert forall i :: 0 <= i < |onAllow| ==> Children(e)[i] == onAllow[i]; }
      if env.w.pdp(pos, call, st.bag) == PdpOk(Allowed) {
        CleanListIsApproved(onAllow, src, st, pos + [0], 0, env);
      }
  }

  lemma {:induction false} CleanListIsApproved(es: seq<Effect>, src: string, st: State, pos: Pos, k: nat, env: Env)
    requires Gated(env) && AllClean(es) && Walk(es, src, st, pos, k, env).outcome.Continue?
    ensures AllApproved(VisitsIn(es, src, st, pos, k, env), env.w)
    decreases es
  {
    if es != [] {
      CleanIsApproved(es[0], src, st, pos + [k], env);
      CleanListIsApproved(es[1..], src, Exec(es[0], src, st, pos + [k], env).st, pos, k + 1, env);
    }
  }

  lemma EngineGated(phase: Phase, w: World)
    ensures Gated(In(phase, w))
  {
    forall step: ElicitStep, src, st, pos
      | !Continues(step.onError) && In(phase, w).leaf(Elicit(step), src, st, pos).outcome.Continue?
      ensures Approved(step, st.bag, pos, w)
    {
      assert In(phase, w).leaf(Elicit(step), src, st, pos) == ElicitRun(step, st, pos, phase, w);
      PassedIffApproved(step, st, pos, phase, w);
    }
  }

  /** A phase of a validated list that is reported as Allow with nothing pending has got past every
      step it came to, wherever it stands, on the bag the earlier effects left and in this same pass. */
  lemma NothingForwardedUnapproved(es: seq<Effect>, st: State, pos: Pos, phase: Phase, w: World)
    requires AllClean(es)
    ensures var e := Report(Steps(es, st, pos, In(phase, w)));
      e.decision.Allowed? && e.pending.None? ==> AllApproved(VisitsIn(es, "", st, pos, 0, In(phase, w)), w)
  {
    EngineTrusted(phase, w);
    CleanListIsCareful(es, "", st, pos, 0, In(phase, w));
    EngineGated(phase, w);
    if Steps(es, st, pos, In(phase, w)).outcome.Continue? {
      CleanListIsApproved(es, "", st, pos, 0, In(phase, w));
    }
  }

  // ----- reading what handlers report -----

  datatype StatusKind = KindPending | KindResolved | KindExpired

  datatype OutcomeKind = KindApproved | KindDenied

  /** The fields a handler may fill in. */
  datatype Handled = Handled(
    id: Option<string>,
    status: Option<StatusKind>,
    outcome: Option<OutcomeKind>,
    valid: Option<bool>,
    approver: Option<string>,
    intentId: Option<string>,
    expiresAt: Option<string>)

  /** A handler halts, answers without a payload, or answers. */
  datatype HandlerResult = Stopped(detail: string) | NoPayload | Answered(out: Handled)

  function ReadDispatch(h: HandlerResult): DispatchAnswer
  {
    match h
    case Stopped(detail) => DispatchErr(detail)
    case NoPayload => DispatchErr("no payload")
    case Answered(out) =>
      if out.id.None? then DispatchErr("no id")
      else Dispatched(out.id.value, out.approver, out.intentId, out.expiresAt)
  }

  function ReadCheck(h: HandlerResult): CheckAnswer
  {
    match h
    case Stopped(detail) => CheckErr(detail)
    case NoPayload => CheckErr("no payload")
    case Answered(out) =>
      Checked(match out.status
        case None => StatusPending
        case Some(KindPending) => StatusPending
        case Some(KindExpired) => StatusExpired
        case Some(KindResolved) => StatusResolved(out.outcome == Some(KindApproved)))
  }

  function ReadValidate(h: HandlerResult): ValidateAnswer
  {
    match h
    case Stopped(detail) => ValidateErr(detail)
    case NoPayload => ValidateErr("no payload")
    case Answered(out) => Validated(out.valid == Some(true), out.approver, out.intentId)
  }

  /** Handlers, by position, step, and identity or id asked about. */
  datatype Handlers = Handlers(
    dispatch: (Pos, ElicitStep, string) -> HandlerResult,
    check: (Pos, ElicitStep, string) -> HandlerResult,
    validate: (Pos, ElicitStep, string) -> HandlerResult)

  /** The world's elicitation answers are these handlers', read by the invoker. */
  ghost predicate Wired(w: World, h: Handlers)
  {
    forall pos, step, x ::
      && w.dispatch(pos, step, x) == ReadDispatch(h.dispatch(pos, step, x))
      && w.check(pos, step, x) == ReadCheck(h.check(pos, step, x))
      && w.validate(pos, step, x) == ReadValidate(h.validate(pos, step, x))
  }

  /** The handler said so in so many words: every field present, none inferred. */
  predicate SpeltOut(check: HandlerResult, validate: HandlerResult)
  {
    && check.Answered? && check.out.status == Some(KindResolved) && check.out.outcome == Some(KindApproved)
    && validate.Answered? && validate.out.valid == Some(true)
  }

  /** End to end: a phase that is forwarded has, for each step it came to without `on_error: continue`,
      an explicit approval and an explicit verdict of genuineness from the handler on the question it
      asked, and a scope that holds; a missing field never counts as approval. */
  lemma ForwardedMeansSpeltOut(es: seq<Effect>, st: State, pos: Pos, phase: Phase, w: World, h: Handlers, i: nat)
    requires AllClean(es) && Wired(w, h)
    requires var e := Report(Steps(es, st, pos, In(phase, w))); e.decision.Allowed? && e.pending.None?
    requires i < |VisitsIn(es, "", st, pos, 0, In(phase, w))|
    requires !Continues(VisitsIn(es, "", st, pos, 0, In(phase, w))[i].step.onError)
    ensures var v := VisitsIn(es, "", st, pos, 0, In(phase, w))[i];
      var q := Question(v.step, v.bag, v.pos, w);
      && q.Some?
      && SpeltOut(h.check(v.pos, v.step, q.value.0), h.validate(v.pos, v.step, q.value.0))
      && ScopeHolds(v.step, q.value.1, w.host)
  {
    var v := VisitsIn(es, "", st, pos, 0, In(phase, w))[i];
    NothingForwardedUnapproved(es, st, pos, phase, w);
    ApprovedIsSpeltOut(v.step, v.bag, v.pos, w, h);
  }

  lemma ApprovedIsSpeltOut(step: ElicitStep, bag: Bag, pos: Pos, w: World, h: Handlers)
    requires Approved(step, bag, pos, w) && Wired(w, h)
    ensures var id := Question(step, bag, pos, w).value.0; SpeltOut(h.check(pos, step, id), h.validate(pos, step, id))
  {
    var id := Question(step, bag, pos, w).value.0;
    assert w.check(pos, step, id) == ReadCheck(h.check(pos, step, id));
    assert w.validate(pos, step, id) == ReadValidate(h.validate(pos, step, id));
  }
}
