/** Running trees of effects (`dispatch_effect`, `dispatch_parallel` and `evaluate_effects` in
    `evaluator.rs`), over any meaning of conditions and single-step effects. */
module Trees {
  import opened Text
  import opened Ir
  import opened World
  import opened Runs

  /** The world, and what conditions and single-step effects mean in it. */
  datatype Env = Env(
    w: World,
    holds: (Expression, Bag) -> bool,
    leaf: (Effect, string, State, Pos) -> Run)

  predicate IsLeaf(e: Effect) { !e.Sequential? && !e.Parallel? && !e.When? && !e.Pdp? }

  /** `dispatch_effect`; `src` is the rule source reported by denials without a code. */
  function Exec(e: Effect, src: string, st: State, pos: Pos, env: Env): Run
  {
    match e
    case Sequential(body) => Walk(body, src, st, pos, 0, env)
    case Parallel(branches) => Merge(Slots(Branches(branches, src, st, pos, 0, env), pos, env.w), st)
    case When(condition, body, source) =>
      if env.holds(condition, st.bag) then Walk(body, source, st, pos, 0, env) else Done(st)
    case Pdp(call, onAllow, onDeny) =>
      var answer := env.w.pdp(pos, call, st.bag);
      Logged([PdpCalled(pos, call, answer)],
        match answer
        case PdpErr(error) => Denying(PdpFailed(error), "pdp:" + call.dialect, st)
        case PdpOk(Allowed) => Walk(onAllow, src, st, pos + [0], 0, env)
        case PdpOk(denied) => Insist(denied, Walk(onDeny, src, st, pos + [1], 0, env)))
    case _ => env.leaf(e, src, st, pos)
  }

  /** A denial stands when the reactions to it did not end the phase themselves. */
  function Insist(denied: Decision, r: Run): Run
  {
    if r.outcome.Continue? then r.(outcome := Halt(denied)) else r
  }

  /** A list in order, up to the first halt or suspension; `es[0]` sits at `pos + [k]`. */
  function Walk(es: seq<Effect>, src: string, st: State, pos: Pos, k: nat, env: Env): Run
  {
    if es == [] then Done(st)
    else
      var r := Exec(es[0], src, st, pos + [k], env);
      if r.outcome.Continue? then Then(r, Walk(es[1..], src, r.st, pos, k + 1, env)) else r
  }

  /** Each branch alone, on its own copy of the state. */
  function Branches(es: seq<Effect>, src: string, st: State, pos: Pos, k: nat, env: Env): (rs: seq<Run>)
    ensures |rs| == |es|
  {
    if es == [] then []
    else [Exec(es[0], src, st, pos + [k], env)] + Branches(es[1..], src, st, pos, k + 1, env)
  }

  // ----- a phase -----

  datatype StepsEvaluation = StepsEvaluation(
    decision: Decision,
    taints: seq<TaintEvent>,
    constraints: seq<CandidateConstraint>,
    argsModified: bool,
    resultModified: bool,
    pending: Option<Pending>)

  /** A suspended phase reports Allow with a pending bundle beside it. */
  function Report(r: Run): StepsEvaluation
  {
    StepsEvaluation(
      if r.outcome.Halt? then r.outcome.decision else Allowed,
      r.taints, r.constraints, r.argsModified, r.resultModified,
      if r.outcome.Suspend? then Some(r.outcome.pending) else None)
  }

  /** The top-level list of a phase. */
  function Steps(es: seq<Effect>, st: State, pos: Pos, env: Env): Run { Walk(es, "", st, pos, 0, env) }
}
