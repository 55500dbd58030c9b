/** What runs keep: one induction over effect trees for every law that survives composition. */
module Frames {
  import opened Ir
  import opened World
  import opened Runs
  import opened Trees
  import opened Purity

  /** A law of runs that holds of doing nothing, composes, and looks only at state and flags. */
  ghost predicate Composes(law: (State, Run) -> bool)
  {
    && (forall st: State, r: Run :: r.st == st && !r.argsModified && !r.resultModified ==> law(st, r))
    && (forall st: State, a: Run, b: Run :: law(st, a) && law(a.st, b) ==> law(st, Then(a, b)))
    && (forall st: State, a: Run, b: Run :: law(st, a) && SameState(a, b) ==> law(st, b))
  }

  predicate SameState(a: Run, b: Run)
  {
    a.st == b.st && a.argsModified == b.argsModified && a.resultModified == b.resultModified
  }

  /** Every single-step effect of the tree is `ok`. */
  predicate TreeLeaves(e: Effect, ok: Effect -> bool)
  {
    match e
    case Sequential(body) => AllLeaves(body, ok)
    case Parallel(branches) => AllLeaves(branches, ok)
    case When(_, body, _) => AllLeaves(body, ok)
    case Pdp(_, onAllow, onDeny) => AllLeaves(onAllow, ok) && AllLeaves(onDeny, ok)
    case _ => ok(e)
  }

  predicate AllLeaves(es: seq<Effect>, ok: Effect -> bool)
  {
    es == [] || (TreeLeaves(es[0], ok) && AllLeaves(es[1..], ok))
  }

  ghost predicate LeavesObey(env: Env, ok: Effect -> bool, law: (State, Run) -> bool)
  {
    forall e, src, st, pos :: IsLeaf(e) && ok(e) ==> law(st, env.leaf(e, src, st, pos))
  }

  lemma {:induction false} ExecObeys(e: Effect, src: string, st: State, pos: Pos, env: Env, ok: Effect -> bool,
                                     law: (State, Run) -> bool)
    requires Composes(law) && LeavesObey(env, ok, law) && TreeLeaves(e, ok)
    ensures law(st, Exec(e, src, st, pos, env))
    decreases e
  {
    match e {
      case Sequential(body) => WalkObeys(body, src, st, pos, 0, env, ok, law);
      case Parallel(branches) => MergeIsQuiet(Slots(Branches(branches, src, st, pos, 0, env), pos, env.w), st);
      case When(_, body, source) => WalkObeys(body, source, st, pos, 0, env, ok, law);
      case Pdp(call, onAllow, onDeny) =>
        WalkObeys(onAllow, src, st, pos + [0], 0, env, ok, law);
        WalkObeys(onDeny, src, st, pos + [1], 0, env, ok, law);
        var answer := env.w.pdp(pos, call, st.bag);
        var r := Exec(e, src, st, pos, env);
        if answer.PdpErr? {
          assert SameState(r, Done(st));
        } else if answer.decision.Allowed? {
          assert SameState(Walk(onAllow, src, st, pos + [0], 0, env), r);
        } else {
          assert SameState(Walk(onDeny, src, st, pos + [1], 0, env), r);
        }
      case _ =>
    }
  }

  lemma {:induction false} WalkObeys(es: seq<Effect>, src: string, st: State, pos: Pos, k: nat, env: Env,
                                     ok: Effect -> bool, law: (State, Run) -> bool)
    requires Composes(law) && LeavesObey(env, ok, law) && AllLeaves(es, ok)
    ensures law(st, Walk(es, src, st, pos, k, env))
    decreases es
  {
    if es != [] {
      ExecObeys(es[0], src, st, pos + [k], env, ok, law);
      var r := Exec(es[0], src, st, pos + [k], env);
      WalkObeys(es[1..], src, r.st, pos, k + 1, env, ok, law);
    }
  }
}
