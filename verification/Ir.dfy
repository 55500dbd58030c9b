/** The policy language's intermediate representation (`rules.rs`, `pipeline.rs`,
    `constraint.rs`, `step.rs`) and the values exchanged with the invokers. */
module Ir {
  import opened Text
  import opened Json

  // ----- predicates -----

  datatype CompareOp = Eq | NotEq | Gt | GtEq | Lt | LtEq | Contains

  /** A float literal is kept as its lexeme; the host's numerics give it a value. */
  datatype Literal = LBool(b: bool) | LInt(i: int) | LFloat(lexeme: string) | LString(s: string)

  datatype Condition =
    | Comparison(key: string, op: CompareOp, value: Literal)
    | IsTrue(key: string)
    | IsFalse(key: string)
    | Exists(key: string)
    | InSet(valueKey: string, setKey: string, negate: bool)

  datatype Expression =
    | Cond(c: Condition)
    | And(parts: seq<Expression>)
    | Or(parts: seq<Expression>)
    | Not(inner: Expression)
    | Always

  // ----- attributes -----

  datatype AttributeValue =
    | ABool(b: bool)
    | AInt(i: int)
    | AFloat(f: Float)
    | AString(s: string)
    | ASet(strings: set<string>)

  type Bag = map<string, AttributeValue>

  // ----- field pipelines -----

  datatype TypeCheck = TStr | TInt | TBool | TFloat | TEmail | TUrl | TUuid

  datatype TaintScope = Session | Message

  datatype TaintEvent = TaintEvent(tag: string, scopes: seq<TaintScope>)

  datatype ScanKind = PiiRedact | PiiDetect | InjectionScan

  datatype Stage =
    | Type(tc: TypeCheck)
    | Regex(pattern: string)
    | Validate(name: string)
    | Length(lenMin: Option<nat>, lenMax: Option<nat>)
    | Range(min: Option<int>, max: Option<int>)
    | Enum(values: seq<string>)
    | Mask(keepLast: nat)
    | Redact(condition: Option<Expression>)
    | Omit
    | Hash
    | StageTaint(tag: string, scopes: seq<TaintScope>)
    | StagePlugin(name: string)
    | Scan(kind: ScanKind)

  datatype FieldRule = FieldRule(field: string, stages: seq<Stage>, source: string)

  // ----- backend constraints -----

  datatype OnEmpty = DenyRequest | Fallback

  datatype StringSetSpec = Ref(path: string) | Literals(strings: seq<string>)

  datatype RestrictSpec = RestrictSpec(
    allowModels: Option<StringSetSpec>,
    denyModels: Option<StringSetSpec>,
    allowRegions: Option<StringSetSpec>,
    allowSites: Option<StringSetSpec>,
    maxCostTier: Option<string>,
    custom: map<string, string>,
    onEmpty: OnEmpty)

  /** The lists the engine keeps sorted and de-duplicated are sets here. */
  datatype CandidateConstraint = CandidateConstraint(
    allowModels: Option<set<string>>,
    denyModels: set<string>,
    allowRegions: Option<set<string>>,
    allowSites: Option<set<string>>,
    maxCostTier: Option<string>,
    custom: map<string, string>,
    onEmpty: OnEmpty)

  // ----- steps and effects -----

  datatype DelegateStep = DelegateStep(plugin: string, config: Json, onError: Option<string>, source: string)

  datatype ElicitStep = ElicitStep(
    kind: string,
    plugin: string,
    channel: Option<string>,
    from: string,
    scope: Option<string>,
    onError: Option<string>,
    source: string)

  datatype PdpCall = PdpCall(dialect: string, args: Json)

  datatype Effect =
    | Allow
    | Deny(reason: Option<string>, code: Option<string>)
    | Plugin(name: string)
    | Delegate(delegation: DelegateStep)
    | Elicit(step: ElicitStep)
    | Taint(tag: string, scopes: seq<TaintScope>)
    | Restrict(spec: RestrictSpec)
    | FieldOp(path: string, stages: seq<Stage>)
    | Sequential(body: seq<Effect>)
    | Parallel(branches: seq<Effect>)
    | When(condition: Expression, body: seq<Effect>, source: string)
    | Pdp(call: PdpCall, onAllow: seq<Effect>, onDeny: seq<Effect>)

  datatype Rule = Rule(condition: Expression, effects: seq<Effect>, source: string)

  // ----- decisions -----

  /** Why a stage rejected a value, without the message wording. */
  datatype FieldFault =
    | WrongType(expected: TypeCheck)
    | NeedsString
    | NeedsInteger
    | OutOfBounds
    | NotInEnum
    | BadRegex
    | NoMatch
    | NoSuchValidator(validator: string)

  datatype ElicitFault =
    | UnresolvedFrom
    | DispatchFailed
    | CheckFailed
    | Expired
    | ValidationFailed
    | Invalid
    | ScopeUnmet
    | ScopeUnparsable

  datatype Reason =
    | Said(text: string)
    | PluginDenied(plugin: string)
    | PluginFailed(plugin: string, error: string)
    | DelegateFailed(plugin: string, error: string)
    | PdpFailed(error: string)
    | FieldRejected(fault: FieldFault)
    | BadFieldPath(path: string)
    | UnresolvedDenyList(path: string)
    | ElicitFailed(what: ElicitFault)
    | ElicitRefused

  datatype Decision = Allowed | Denied(reason: Option<Reason>, ruleSource: string)

  datatype Payload = Payload(args: Json, result: Option<Json>)

  datatype Phase = Pre | Post

  /** The bundle a suspended phase hands to the host. */
  datatype Pending = Pending(
    id: string,
    plugin: string,
    approver: Option<string>,
    intentId: Option<string>,
    channel: Option<string>,
    expiresAt: Option<string>,
    source: string)

  datatype Outcome = Continue | Halt(decision: Decision) | Suspend(pending: Pending)

  // ----- what the invokers answer -----

  datatype Invocation = StepCall(phase: Phase) | FieldCall(field: string, value: Json, phase: Phase)

  datatype PdpAnswer = PdpOk(decision: Decision) | PdpErr(error: string)

  datatype PluginAnswer =
    | PluginOk(decision: Decision, taints: seq<TaintEvent>, modified: Option<Json>)
    | PluginErr(error: string)

  datatype DelegateAnswer =
    | DelegateOk(decision: Decision, permissions: seq<string>, audience: Option<string>, expiresAt: Option<string>)
    | DelegateErr(error: string)

  datatype DispatchAnswer =
    | Dispatched(id: string, approver: Option<string>, intentId: Option<string>, expiresAt: Option<string>)
    | DispatchErr(error: string)

  datatype ElicitStatus = StatusPending | StatusResolved(approved: bool) | StatusExpired

  datatype CheckAnswer = Checked(status: ElicitStatus) | CheckErr(error: string)

  datatype ValidateAnswer =
    | Validated(valid: bool, approver: Option<string>, intentId: Option<string>)
    | ValidateErr(error: string)
}
