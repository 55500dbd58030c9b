/** The outside of the engine: invoker answers, scheduling, and the log of calls made.

    Every effect and every pipeline stage is reached at most once in a run, so an
    invoker that keeps state, or answers at random, is a function of the position it
    is called from.  Quantifying over worlds is quantifying over all invokers and all
    schedules. */
module World {
  import opened Ir
  import opened Attributes

  /** Where in the effect tree a call is made. */
  type Pos = seq<nat>

  datatype World = World(
    pdp: (Pos, PdpCall, Bag) -> PdpAnswer,
    plugin: (Pos, string, Bag, Invocation) -> PluginAnswer,
    delegate: (Pos, DelegateStep) -> DelegateAnswer,
    dispatch: (Pos, ElicitStep, string) -> DispatchAnswer,
    check: (Pos, ElicitStep, string) -> CheckAnswer,
    validate: (Pos, ElicitStep, string) -> ValidateAnswer,
    /** Does the scheduler cancel branch `i` of the parallel block at `Pos`, once it may? */
    cancels: (Pos, nat) -> bool,
    /** Had branch `i` made the `n`-th of its calls when it was cancelled? */
    made: (Pos, nat, nat) -> bool,
    host: Host)

  datatype Event =
    | PdpCalled(pos: Pos, call: PdpCall, pdp: PdpAnswer)
    | PluginCalled(pos: Pos, name: string, plugin: PluginAnswer)
    | DelegateCalled(pos: Pos, delegation: DelegateStep, delegated: DelegateAnswer)
    | ElicitDispatched(pos: Pos, step: ElicitStep, dispatched: DispatchAnswer)
    | ElicitChecked(pos: Pos, step: ElicitStep, id: string, checked: CheckAnswer)
    | ElicitValidated(pos: Pos, step: ElicitStep, id: string, validated: ValidateAnswer)
    | Restricted(pos: Pos, spec: RestrictSpec, bag: Bag)
}
