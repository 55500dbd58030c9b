/** The engine itself: trees of effects over the single-step effects of `Leaves`. */
module Engine {
  import opened Ir
  import opened Attributes
  import opened World
  import opened Leaves
  import opened Trees

  function In(phase: Phase, w: World): Env
  {
    Env(w, (e, bag) => Eval(e, bag, w.host), (e, src, st, pos) => LeafRun(e, src, st, pos, phase, w))
  }
}
