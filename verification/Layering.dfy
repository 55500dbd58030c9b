/** Effect lists compose, and configuration layers stack (`evaluate_effects` in `evaluator.rs`,
    `apply_layer` in `rules.rs`). */
module Layering {
  import opened Ir
  import opened World
  import opened Runs
  import opened Trees

  lemma ThenAssociative(a: Run, b: Run, c: Run)
    ensures Then(a, Then(b, c)) == Then(Then(a, b), c)
  {
    assert a.taints + (b.taints + c.taints) == a.taints + b.taints + c.taints;
    assert a.constraints + (b.constraints + c.constraints) == a.constraints + b.constraints + c.constraints;
    assert a.log + (b.log + c.log) == a.log + b.log + c.log;
  }

  lemma ThenDone(r: Run)
    ensures r.outcome.Continue? ==> Then(r, Done(r.st)) == r
    ensures Then(Done(r.st), r) == r
  {
  }

  /** `xs ++ ys` is `xs`, then `ys` from the state `xs` left if it neither halted nor suspended;
      otherwise nothing of `ys` is dispatched. */
  lemma {:induction false} WalkConcat(xs: seq<Effect>, ys: seq<Effect>, src: string, st: State, pos: Pos, k: nat,
                                      env: Env)
    ensures var r := Walk(xs, src, st, pos, k, env);
      Walk(xs + ys, src, st, pos, k, env) ==
        if r.outcome.Continue? then Then(r, Walk(ys, src, r.st, pos, k + |xs|, env)) else r
    decreases |xs|
  {
    if xs == [] {
      assert xs + ys == ys;
      ThenDone(Walk(ys, src, st, pos, k, env));
    } else {
      assert (xs + ys)[0] == xs[0] && (xs + ys)[1..] == xs[1..] + ys;
      var head := Exec(xs[0], src, st, pos + [k], env);
      if head.outcome.Continue? {
        WalkConcat(xs[1..], ys, src, head.st, pos, k + 1, env);
        var tail := Walk(xs[1..], src, head.st, pos, k + 1, env);
        ThenAssociative(head, tail, Walk(ys, src, tail.st, pos, k + |xs|, env));
      }
    }
  }
}
