/** What each single-step effect does (`dispatch_effect`, `dispatch_elicitation` and
    `dispatch_field_op` in `evaluator.rs`). */
module Leaves {
  import opened Text
  import opened Json
  import opened Ir
  import opened Attributes
  import opened World
  import opened Pipelines
  import opened Constraints
  import opened Runs
  import PredParser

  /** `on_error` is compared without regard to ASCII case and defaults to deny. */
  predicate Continues(onError: Option<string>)
  {
    onError.Some? && AsciiLower(onError.value) == "continue"
  }

  // ----- plugin, delegate, restrict -----

  function PluginRun(name: string, st: State, pos: Pos, phase: Phase, w: World): Run
  {
    var answer := w.plugin(pos, name, st.bag, StepCall(phase));
    Logged([PluginCalled(pos, name, answer)],
      match answer
      case PluginErr(e) => Denying(PluginFailed(name, e), "plugin:" + name, st)
      case PluginOk(decision, taints, _) =>
        Run(if decision.Allowed? then Outcome.Continue else Halt(decision), st, taints, [], false, false, []))
  }

  const GRANTED := "delegation.granted"
  const GRANTED_PERMISSIONS := "delegation.granted.permissions"
  const GRANTED_AUDIENCE := "delegation.granted.audience"
  const GRANTED_EXPIRES_AT := "delegation.granted.expires_at"

  function SetString(bag: Bag, key: string, value: Option<string>): Bag
  {
    if value.Some? then bag[key := AString(value.value)] else bag
  }

  function GrantBag(bag: Bag, permissions: seq<string>, audience: Option<string>, expiresAt: Option<string>): Bag
  {
    var granted := bag[GRANTED := ABool(true)];
    var permitted := if permissions == [] then granted else granted[GRANTED_PERMISSIONS := ASet(ToSet(permissions))];
    SetString(SetString(permitted, GRANTED_AUDIENCE, audience), GRANTED_EXPIRES_AT, expiresAt)
  }

  function DelegateRun(d: DelegateStep, st: State, pos: Pos, phase: Phase, w: World): Run
  {
    var answer := w.delegate(pos, d);
    Logged([DelegateCalled(pos, d, answer)],
      match answer
      case DelegateOk(Allowed, permissions, audience, expiresAt) =>
        Done(st.(bag := GrantBag(st.bag, permissions, audience, expiresAt)))
      case DelegateOk(denied, _, _, _) => if Continues(d.onError) then Done(st) else Ended(Halt(denied), st)
      case DelegateErr(e) =>
        if Continues(d.onError) then Done(st) else Denying(DelegateFailed(d.plugin, e), d.source, st))
  }

  function RestrictRun(spec: RestrictSpec, src: string, st: State, pos: Pos, phase: Phase, w: World): Run
  {
    match Resolve(spec, st.bag, w.host)
    case Err(path) => Denying(UnresolvedDenyList(path), src, st)
    case Ok(constraint) =>
      Run(Outcome.Continue, st, [], if IsEmpty(constraint) then [] else [constraint], false, false,
          [Restricted(pos, spec, st.bag)])
  }

  // ----- elicitation -----

  const ELICIT_ID := "elicitation.id"
  const ELICIT_STATUS := "elicitation.status"
  const ELICIT_APPROVER := "elicitation.approver"
  const ELICIT_OUTCOME := "elicitation.outcome"
  const ELICIT_INTENT_ID := "elicitation.intent_id"
  const ELICIT_CHANNEL := "elicitation.channel"
  const ELICIT_EXPIRES_AT := "elicitation.expires_at"

  /** A dotted path of identifier characters, as opposed to a literal identity. */
  predicate LooksLikeAttributeRef(s: string)
  {
    '.' in s && IsAlpha(s[0]) && forall c :: c in s ==> IsAlpha(c) || IsDigit(c) || c == '_' || c == '.'
  }

  /** The identity being asked, or `None` for an attribute that did not resolve. */
  function ResolveFrom(step: ElicitStep, bag: Bag): Option<string>
  {
    var found := GetString(bag, step.from);
    if found.Some? then found
    else if LooksLikeAttributeRef(step.from) then None
    else Some(step.from)
  }

  /** A channel or validation failure, subject to `on_error`. */
  function ElicitFailing(step: ElicitStep, fault: ElicitFault, st: State): Run
  {
    if Continues(step.onError) then Done(st) else Denying(ElicitFailed(fault), step.source, st)
  }

  function OpenedBag(bag: Bag, step: ElicitStep, id: string, approver: Option<string>, intentId: Option<string>,
                     expiresAt: Option<string>): Bag
  {
    var b := bag[ELICIT_ID := AString(id)][ELICIT_STATUS := AString("pending")];
    SetString(SetString(SetString(SetString(b, ELICIT_CHANNEL, step.channel),
      ELICIT_APPROVER, approver), ELICIT_INTENT_ID, intentId), ELICIT_EXPIRES_AT, expiresAt)
  }

  /** Dispatch on first arrival; a retry carries the id and only asks for the status. */
  function ElicitRun(step: ElicitStep, st: State, pos: Pos, phase: Phase, w: World): Run
  {
    match ResolveFrom(step, st.bag)
    case None => ElicitFailing(step, UnresolvedFrom, st)
    case Some(from) =>
      match GetString(st.bag, ELICIT_ID)
      case Some(id) => CheckRun(step, id, st, pos, phase, w)
      case None => AskRun(step, from, st, pos, phase, w)
  }

  function AskRun(step: ElicitStep, from: string, st: State, pos: Pos, phase: Phase, w: World): Run
  {
    var answer := w.dispatch(pos, step, from);
    Logged([ElicitDispatched(pos, step, answer)],
      match answer
      case DispatchErr(_) => ElicitFailing(step, DispatchFailed, st)
      case Dispatched(id, approver, intentId, expiresAt) =>
        CheckRun(step, id, st.(bag := OpenedBag(st.bag, step, id, approver, intentId, expiresAt)), pos, phase, w))
  }

  function CheckRun(step: ElicitStep, id: string, st: State, pos: Pos, phase: Phase, w: World): Run
  {
    var answer := w.check(pos, step, id);
    Logged([ElicitChecked(pos, step, id, answer)],
      match answer
      case CheckErr(_) => ElicitFailing(step, CheckFailed, st)
      case Checked(StatusPending) =>
        var bag := st.bag[ELICIT_STATUS := AString("pending")];
        Ended(Suspend(Pending(id, step.plugin, GetString(bag, ELICIT_APPROVER), GetString(bag, ELICIT_INTENT_ID),
          step.channel, GetString(bag, ELICIT_EXPIRES_AT), step.source)), st.(bag := bag))
      case Checked(StatusExpired) =>
        ElicitFailing(step, Expired, st.(bag := st.bag[ELICIT_STATUS := AString("expired")]))
      case Checked(StatusResolved(approved)) =>
        if approved then ValidateRun(step, id, st, pos, phase, w)
        else Denying(ElicitRefused, step.source,
          st.(bag := st.bag[ELICIT_STATUS := AString("resolved")][ELICIT_OUTCOME := AString("denied")])))
  }

  /** Does the response cover this request?  An unparsable scope covers nothing. */
  function ScopeFault(step: ElicitStep, bag: Bag, host: Host): Option<ElicitFault>
  {
    if step.scope.None? then None
    else match PredParser.ParsePredicate(step.scope.value)
      case None => Some(ScopeUnparsable)
      case Some(e) => if Eval(e, bag, host) then None else Some(ScopeUnmet)
  }

  function ValidateRun(step: ElicitStep, id: string, st: State, pos: Pos, phase: Phase, w: World): Run
  {
    var answer := w.validate(pos, step, id);
    Logged([ElicitValidated(pos, step, id, answer)],
      match answer
      case ValidateErr(_) => ElicitFailing(step, ValidationFailed, st)
      case Validated(valid, approver, intentId) =>
        if !valid then ElicitFailing(step, Invalid, st)
        else match ScopeFault(step, st.bag, w.host)
          case Some(fault) => ElicitFailing(step, fault, st)
          case None =>
            var b := st.bag[ELICIT_STATUS := AString("resolved")][ELICIT_OUTCOME := AString("approved")];
            Done(st.(bag := SetString(SetString(b, ELICIT_APPROVER, approver), ELICIT_INTENT_ID, intentId))))
  }

  // ----- field edits -----

  /** What running a pipeline on one field of `root` did. */
  datatype FieldEdit = FieldEdit(
    rejected: Option<Reason>,
    root: Json,
    modified: bool,
    taints: seq<TaintEvent>,
    log: seq<Event>)

  /** Run `stages` on the field and write the outcome back; a missing field is skipped. */
  function EditField(root: Json, field: string, stages: seq<Stage>, site: Site): FieldEdit
  {
    match Get(root, Segments(field))
    case None => FieldEdit(None, root, false, [], [])
    case Some(current) => Applied(root, Segments(field), Evaluate(stages, current, site))
  }

  function Applied(root: Json, path: Path, r: PipeRun): FieldEdit
    requires path != []
  {
    match r.outcome
    case Reject(reason, _) => FieldEdit(Some(reason), root, false, r.taints, r.log)
    case Pass => FieldEdit(None, root, false, r.taints, r.log)
    case Replace(v) => Written(root, Set(root, path, v), r.taints, r.log)
    case OmitField => Written(root, Remove(root, path), r.taints, r.log)
  }

  function Written(root: Json, updated: Option<Json>, taints: seq<TaintEvent>, log: seq<Event>): FieldEdit
  {
    if updated.Some? then FieldEdit(None, updated.value, true, taints, log)
    else FieldEdit(None, root, false, taints, log)
  }

  const ARGS_PREFIX := "args."
  const RESULT_PREFIX := "result."

  /** Out-of-phase edits and edits of an absent result are silently skipped. */
  function FieldOpRun(path: string, stages: seq<Stage>, src: string, st: State, pos: Pos, phase: Phase, w: World): Run
  {
    var args, result := StripPrefix(path, ARGS_PREFIX), StripPrefix(path, RESULT_PREFIX);
    if args.Some? then
      if phase != Pre then Done(st)
      else
        var e := EditField(st.payload.args, args.value, stages, Site(st.bag, args.value, phase, pos, w));
        EditRun(e, true, st.(payload := st.payload.(args := e.root)), src)
    else if result.Some? then
      if phase != Post || st.payload.result.None? then Done(st)
      else
        var e := EditField(st.payload.result.value, result.value, stages, Site(st.bag, result.value, phase, pos, w));
        EditRun(e, false, st.(payload := st.payload.(result := Some(e.root))), src)
    else Denying(BadFieldPath(path), src, st)
  }

  function EditRun(e: FieldEdit, args: bool, st: State, src: string): Run
  {
    Run(if e.rejected.Some? then Halt(Denied(e.rejected, src)) else Outcome.Continue,
        st, e.taints, [], args && e.modified, !args && e.modified, e.log)
  }

  // ----- all of them -----

  /** The effects without a body of effects. */
  function LeafRun(e: Effect, src: string, st: State, pos: Pos, phase: Phase, w: World): Run
  {
    match e
    case Deny(reason, code) =>
      Ended(Halt(Denied(if reason.Some? then Some(Said(reason.value)) else None,
                        if code.Some? then code.value else src)), st)
    case Plugin(name) => PluginRun(name, st, pos, phase, w)
    case Delegate(d) => DelegateRun(d, st, pos, phase, w)
    case Elicit(step) => ElicitRun(step, st, pos, phase, w)
    case Taint(tag, scopes) => Run(Outcome.Continue, st, [TaintEvent(tag, scopes)], [], false, false, [])
    case Restrict(spec) => RestrictRun(spec, src, st, pos, phase, w)
    case FieldOp(path, stages) => FieldOpRun(path, stages, src, st, pos, phase, w)
    case _ => Done(st)
  }
}
