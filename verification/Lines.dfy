/** Which form a line of policy text has (`parse_step_string`, `parse_rule`, `parse_action` and
    `parse_effect_string` in `parser.rs`).  A line reads as one single-step effect or as a rule with
    one control action, never as a list; the arguments inside a form are read by the surface. */
module Lines {
  import opened Text
  import opened Ir

  datatype Action = AllowAction | DenyAction(reason: Option<string>, code: Option<string>)

  datatype Line =
    | TaintLine(tag: string, scopes: seq<TaintScope>)
    | PluginLine(name: string)
    | DelegateLine(delegation: DelegateStep)
    | ElicitLine(step: ElicitStep)
    | RuleLine(condition: Expression, action: Action)

  /** An attempt at one form: it is that form, it is another, or it is that form with an error. */
  datatype Tried<T> = Found(value: T) | NotOne | Broken

  datatype Direct = ActionDirect(action: Action) | FieldDirect(path: string, stages: seq<Stage>)

  /** How the insides of the forms read. */
  datatype Surface = Surface(
    condition: string -> Option<Expression>,
    required: string -> Option<Expression>,
    taint: string -> Option<(string, seq<TaintScope>)>,
    delegation: (string, string) -> Option<DelegateStep>,
    elicitation: (string, string, string) -> Option<ElicitStep>,
    denial: string -> Option<(Option<string>, Option<string>)>,
    splitAction: string -> Option<(string, string)>,
    fieldEdit: string -> Tried<(string, seq<Stage>)>,
    pipeline: string -> Option<seq<Stage>>)

  // ----- calls -----

  /** Where the parenthesis opened at the start closes. */
  function Closing(s: string, i: nat, depth: nat): (r: Option<nat>)
    requires i <= |s|
    ensures r.Some? ==> i <= r.value < |s|
    decreases |s| - i
  {
    if i == |s| then None
    else if s[i] == '(' then Closing(s, i + 1, depth + 1)
    else if s[i] == ')' then if depth <= 1 then Some(i) else Closing(s, i + 1, depth - 1)
    else Closing(s, i + 1, depth)
  }

  /** `extract_call_args`. */
  function CallArgs(line: string, name: string): Option<string>
  {
    match StripPrefix(Trim(line), name)
    case None => None
    case Some(after) =>
      if !("(" <= after) then None
      else match Closing(after, 1, 1)
        case None => None
        case Some(i) => if Trim(after[i + 1..]) == "" then Some(after[1..i]) else None
  }

  const ELICIT_VERBS :=
    ["require_approval", "confirm", "require_step_up", "require_attestation", "request_info", "require_review"]

  /** The first of the verbs the line calls. */
  function Verb(line: string, verbs: seq<string>): Option<string>
  {
    if verbs == [] then None
    else if verbs[0] + "(" <= line then Some(verbs[0])
    else Verb(line, verbs[1..])
  }

  // ----- actions and rules -----

  function BareAction(s: string): Option<Action>
  {
    if Trim(s) == "deny" then Some(DenyAction(None, None))
    else if Trim(s) == "allow" then Some(AllowAction)
    else None
  }

  function DenyCall(s: string, o: Surface): Tried<Action>
  {
    if !("deny(" <= s) then NotOne
    else
      var args := CallArgs(s, "deny");
      if args.None? || o.denial(args.value).None? then Broken
      else
        var (reason, code) := o.denial(args.value).value;
        Found(DenyAction(reason, code))
  }

  /** `parse_action`. */
  function ReadAction(s: string, o: Surface): Option<Action>
  {
    var bare := BareAction(s);
    if bare.Some? then bare
    else
      var deny := DenyCall(Trim(s), o);
      if deny.Found? then Some(deny.value) else None
  }

  const STEP_KINDS :=
    ["taint(", "plugin(", "run(", "cedar:", "opa(", "authzen(", "nemo(", "cel:", "sequential:", "parallel:"]

  predicate IsStepKind(line: string) { exists i :: 0 <= i < |STEP_KINDS| && STEP_KINDS[i] <= TrimStart(line) }

  function Guarded(condition: Option<Expression>, action: Action): Option<Line>
  {
    if condition.None? then None else Some(RuleLine(condition.value, action))
  }

  /** `parse_rule`: `require(..)`, `predicate: action`, an action alone, or a predicate that denies. */
  function ReadRule(line: string, o: Surface): Option<Line>
  {
    var trimmed := Trim(line);
    if "require(" <= TrimStart(trimmed) then Guarded(o.required(trimmed), DenyAction(None, None))
    else if IsStepKind(trimmed) then None
    else match o.splitAction(trimmed)
      case Some((condition, action)) =>
        var a := ReadAction(action, o);
        if a.None? then None else Guarded(o.condition(condition), a.value)
      case None =>
        var bare, deny := BareAction(trimmed), DenyCall(trimmed, o);
        if bare.Some? then Some(RuleLine(Always, bare.value))
        else if deny.Found? then Some(RuleLine(Always, deny.value))
        else if deny.Broken? then None
        else Guarded(o.condition(trimmed), DenyAction(None, None))
  }

  // ----- lines -----

  function PluginCall(line: string, verb: string): Option<Line>
  {
    match CallArgs(line, verb)
    case None => None
    case Some(inside) => if Trim(inside) == "" then None else Some(PluginLine(Trim(inside)))
  }

  /** `parse_step_string`. */
  function ReadLine(line: string, src: string, o: Surface): Option<Line>
  {
    var trimmed := Trim(line);
    var verb := Verb(trimmed, ELICIT_VERBS);
    if "taint(" <= trimmed then
      var args := CallArgs(trimmed, "taint");
      if args.None? || o.taint(args.value).None? then None
      else Some(TaintLine(o.taint(args.value).value.0, o.taint(args.value).value.1))
    else if "plugin(" <= trimmed then PluginCall(trimmed, "plugin")
    else if "run(" <= trimmed then PluginCall(trimmed, "run")
    else if "delegate(" <= trimmed then
      var args := CallArgs(trimmed, "delegate");
      if args.None? || o.delegation(args.value, src).None? then None
      else Some(DelegateLine(o.delegation(args.value, src).value))
    else if verb.Some? then
      var args := CallArgs(trimmed, verb.value);
      if args.None? || o.elicitation(verb.value, args.value, src).None? then None
      else Some(ElicitLine(o.elicitation(verb.value, args.value, src).value))
    else ReadRule(trimmed, o)
  }

  /** What `parse_effect_string` tries before reading the string as a step. */
  function ReadDirect(s: string, o: Surface): Tried<Direct>
  {
    var trimmed := Trim(s);
    var bare, deny := BareAction(trimmed), DenyCall(trimmed, o);
    if bare.Some? then Found(ActionDirect(bare.value))
    else if deny.Found? then Found(ActionDirect(deny.value))
    else if deny.Broken? then Broken
    else match o.fieldEdit(trimmed)
      case Found((path, stages)) => Found(FieldDirect(path, stages))
      case NotOne => NotOne
      case Broken => Broken
  }

  function EffectOf(a: Action): Effect
  {
    match a
    case AllowAction => Allow
    case DenyAction(reason, code) => Deny(reason, code)
  }

  function DirectEffect(d: Direct): Effect
  {
    match d
    case ActionDirect(a) => EffectOf(a)
    case FieldDirect(path, stages) => FieldOp(path, stages)
  }
}
