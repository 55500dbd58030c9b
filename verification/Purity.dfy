/** Which effects may run in parallel (`contains_mutation` and `validate_parallel_purity` in
    `rules.rs`), and what the validation guarantees. */
module Purity {
  import opened Text
  import opened Ir
  import opened World
  import opened Runs
  import opened Leaves
  import opened Trees
  import opened Engine

  /** Effects whose work would be lost in a discarded branch. */
  predicate Mutates(e: Effect) { e.FieldOp? || e.Delegate? || e.Elicit? }

  predicate ContainsMutation(e: Effect)
  {
    match e
    case Sequential(body) => AnyMutation(body)
    case Parallel(branches) => AnyMutation(branches)
    case When(_, body, _) => AnyMutation(body)
    case Pdp(_, onAllow, onDeny) => AnyMutation(onAllow) || AnyMutation(onDeny)
    case _ => Mutates(e)
  }

  predicate AnyMutation(es: seq<Effect>)
  {
    es != [] && (ContainsMutation(es[0]) || AnyMutation(es[1..]))
  }

  /** `validate_parallel_purity`: the first offending branch, or `None` for a clean tree. */
  function Violation(e: Effect): Option<Effect>
  {
    match e
    case Parallel(branches) => BranchViolation(branches)
    case Sequential(body) => ListViolation(body)
    case When(_, body, _) => ListViolation(body)
    case Pdp(_, onAllow, onDeny) =>
      var v := ListViolation(onAllow);
      if v.Some? then v else ListViolation(onDeny)
    case _ => None
  }

  function ListViolation(es: seq<Effect>): Option<Effect>
  {
    if es == [] then None
    else
      var v := Violation(es[0]);
      if v.Some? then v else ListViolation(es[1..])
  }

  function BranchViolation(es: seq<Effect>): Option<Effect>
  {
    if es == [] then None
    else if ContainsMutation(es[0]) then Some(es[0])
    else
      var v := Violation(es[0]);
      if v.Some? then v else BranchViolation(es[1..])
  }

  // ----- what the walk decides, stated by paths in the tree -----

  function Children(e: Effect): seq<Effect>
  {
    match e
    case Sequential(body) => body
    case Parallel(branches) => branches
    case When(_, body, _) => body
    case Pdp(_, onAllow, onDeny) => onAllow + onDeny
    case _ => []
  }

  /** The effect a path of child indices leads to. */
  function Subtree(e: Effect, path: seq<nat>): Option<Effect>
  {
    if path == [] then Some(e)
    else if path[0] < |Children(e)| then Subtree(Children(e)[path[0]], path[1..])
    else None
  }

  ghost predicate MutationAt(e: Effect, path: seq<nat>)
  {
    Subtree(e, path).Some? && Mutates(Subtree(e, path).value)
  }

  /** A mutation at `p + q` under a parallel block at `p`. */
  ghost predicate Unsafe(e: Effect, p: seq<nat>, q: seq<nat>)
  {
    Subtree(e, p).Some? && Subtree(e, p).value.Parallel? && MutationAt(e, p + q)
  }

  lemma SubtreeStep(e: Effect, i: nat, path: seq<nat>)
    requires i < |Children(e)|
    ensures Subtree(e, [i] + path) == Subtree(Children(e)[i], path)
  {
    assert ([i] + path)[1..] == path;
  }

  /** A list holds a mutation exactly when one of its effects does. */
  lemma {:induction false} AnyMutationIndex(es: seq<Effect>)
    ensures AnyMutation(es) <==> exists i :: 0 <= i < |es| && ContainsMutation(es[i])
  {
    if es != [] {
      AnyMutationIndex(es[1..]);
      if AnyMutation(es) && !ContainsMutation(es[0]) {
        var j :| 0 <= j < |es[1..]| && ContainsMutation(es[1..][j]);
        assert es[j + 1] == es[1..][j];
      }
      forall i | 0 <= i < |es| && ContainsMutation(es[i]) ensures AnyMutation(es) {
        if i > 0 { assert es[1..][i - 1] == es[i]; }
      }
    }
  }

  lemma ContainsMutationChildren(e: Effect)
    requires !IsLeaf(e)
    ensures ContainsMutation(e) <==> exists i :: 0 <= i < |Children(e)| && ContainsMutation(Children(e)[i])
  {
    AnyMutationIndex(Children(e));
    if e.Pdp? {
      AnyMutationIndex(e.onAllow);
      AnyMutationIndex(e.onDeny);
      if AnyMutation(e.onAllow) {
        var i :| 0 <= i < |e.onAllow| && ContainsMutation(e.onAllow[i]);
        assert Children(e)[i] == e.onAllow[i];
      } else if AnyMutation(e.onDeny) {
        var i :| 0 <= i < |e.onDeny| && ContainsMutation(e.onDeny[i]);
        assert Children(e)[|e.onAllow| + i] == e.onDeny[i];
      }
      forall i | 0 <= i < |Children(e)| && ContainsMutation(Children(e)[i]) ensures ContainsMutation(e) {
        if i < |e.onAllow| { assert Children(e)[i] == e.onAllow[i]; }
        else { assert Children(e)[i] == e.onDeny[i - |e.onAllow|]; }
      }
    }
  }

  lemma ChildSmaller(e: Effect, i: nat)
    requires i < |Children(e)|
    ensures Children(e)[i] < e
  {
    if e.Pdp? {
      if i < |e.onAllow| { assert Children(e)[i] == e.onAllow[i]; }
      else { assert Children(e)[i] == e.onDeny[i - |e.onAllow|]; }
    }
  }

  lemma {:induction false} FindMutation(e: Effect) returns (path: seq<nat>)
    requires ContainsMutation(e)
    ensures MutationAt(e, path)
  {
    if IsLeaf(e) {
      path := [];
    } else {
      ContainsMutationChildren(e);
      var i :| 0 <= i < |Children(e)| && ContainsMutation(Children(e)[i]);
      ChildSmaller(e, i);
      path := FindMutation(Children(e)[i]);
      SubtreeStep(e, i, path);
      path := [i] + path;
    }
  }

  lemma {:induction false} NoMutationAnywhere(e: Effect, path: seq<nat>)
    requires !ContainsMutation(e)
    ensures !MutationAt(e, path)
    decreases |path|
  {
    if path != [] && path[0] < |Children(e)| {
      ContainsMutationChildren(e);
      NoMutationAnywhere(Children(e)[path[0]], path[1..]);
    }
  }

  predicate Clean(e: Effect) { Violation(e).None? }

  predicate AllClean(es: seq<Effect>) { forall i :: 0 <= i < |es| ==> Clean(es[i]) }

  predicate SomeMutation(es: seq<Effect>) { exists i :: 0 <= i < |es| && ContainsMutation(es[i]) }

  lemma {:induction false} ListViolationIndex(es: seq<Effect>)
    ensures ListViolation(es).None? <==> AllClean(es)
  {
    if es != [] {
      ListViolationIndex(es[1..]);
      assert es == [es[0]] + es[1..];
    }
  }

  lemma {:induction false} BranchViolationIndex(es: seq<Effect>)
    ensures BranchViolation(es).None? <==> AllClean(es) && !SomeMutation(es)
  {
    if es != [] {
      BranchViolationIndex(es[1..]);
      assert es == [es[0]] + es[1..];
      if SomeMutation(es) && !ContainsMutation(es[0]) {
        var i :| 0 <= i < |es| && ContainsMutation(es[i]);
        assert es[1..][i - 1] == es[i];
      }
    }
  }

  /** A tree is clean when its children are, and the branches of a parallel block hold no mutation. */
  lemma CleanChildren(e: Effect)
    requires !IsLeaf(e)
    ensures Clean(e) <==> AllClean(Children(e)) && (e.Parallel? ==> !SomeMutation(Children(e)))
  {
    match e
    case Parallel(branches) => BranchViolationIndex(branches);
    case Sequential(body) => ListViolationIndex(body);
    case When(_, body, _) => ListViolationIndex(body);
    case Pdp(_, onAllow, onDeny) =>
      ListViolationIndex(onAllow);
      ListViolationIndex(onDeny);
      assert forall i :: 0 <= i < |onAllow| ==> Children(e)[i] == onAllow[i];
      assert forall i :: 0 <= i < |onDeny| ==> Children(e)[|onAllow| + i] == onDeny[i];
      assert forall i :: |onAllow| <= i < |Children(e)| ==> Children(e)[i] == onDeny[i - |onAllow|];
  }

  lemma {:induction false} CleanIsSafe(e: Effect, p: seq<nat>, q: seq<nat>)
    requires Clean(e)
    ensures !Unsafe(e, p, q)
    decreases |p|
  {
    if Unsafe(e, p, q) {
      if p == [] {
        assert p + q == q;
        CleanChildren(e);
        assert q != [];
        NoMutationAnywhere(Children(e)[q[0]], q[1..]);
      } else {
        assert (p + q)[1..] == p[1..] + q;
        CleanChildren(e);
        CleanIsSafe(Children(e)[p[0]], p[1..], q);
      }
    }
  }

  lemma MutationInBlock(e: Effect) returns (q: seq<nat>)
    requires e.Parallel? && SomeMutation(Children(e))
    ensures Unsafe(e, [], q)
  {
    var i :| 0 <= i < |Children(e)| && ContainsMutation(Children(e)[i]);
    var path := FindMutation(Children(e)[i]);
    SubtreeStep(e, i, path);
    q := [i] + path;
    assert [] + q == q;
  }

  lemma UnsafeBelow(e: Effect, i: nat, p: seq<nat>, q: seq<nat>)
    requires i < |Children(e)| && Unsafe(Children(e)[i], p, q)
    ensures Unsafe(e, [i] + p, q)
  {
    SubtreeStep(e, i, p);
    SubtreeStep(e, i, p + q);
    assert [i] + p + q == [i] + (p + q);
  }

  lemma {:induction false} DirtyIsUnsafe(e: Effect) returns (p: seq<nat>, q: seq<nat>)
    requires !Clean(e)
    ensures Unsafe(e, p, q)
  {
    CleanChildren(e);
    if e.Parallel? && SomeMutation(Children(e)) {
      p := [];
      q := MutationInBlock(e);
    } else {
      var i :| 0 <= i < |Children(e)| && !Clean(Children(e)[i]);
      ChildSmaller(e, i);
      p, q := DirtyIsUnsafe(Children(e)[i]);
      UnsafeBelow(e, i, p, q);
      p := [i] + p;
    }
  }

  /** The validation accepts exactly the trees in which no parallel block has a mutation below it. */
  lemma ValidationIsExact(e: Effect)
    ensures Violation(e).None? <==> forall p, q :: !Unsafe(e, p, q)
  {
    if Clean(e) {
      forall p, q ensures !Unsafe(e, p, q) { CleanIsSafe(e, p, q); }
    } else {
      var p, q := DirtyIsUnsafe(e);
    }
  }

  // ----- pure effects leave no trace in the state -----

  /** State and flags untouched, and no suspension. */
  predicate Quiet(r: Run, st: State)
  {
    r.st == st && !r.argsModified && !r.resultModified && !r.outcome.Suspend?
  }

  ghost predicate PureLeavesAreQuiet(env: Env)
  {
    forall e, src, st, pos :: IsLeaf(e) && !Mutates(e) ==> Quiet(env.leaf(e, src, st, pos), st)
  }

  lemma {:induction false} PureIsQuiet(e: Effect, src: string, st: State, pos: Pos, env: Env)
    requires PureLeavesAreQuiet(env) && !ContainsMutation(e)
    ensures Quiet(Exec(e, src, st, pos, env), st)
    decreases e
  {
    match e
    case Sequential(body) => PureListIsQuiet(body, src, st, pos, 0, env);
    case Parallel(branches) => MergeIsQuiet(Slots(Branches(branches, src, st, pos, 0, env), pos, env.w), st);
    case When(_, body, source) => PureListIsQuiet(body, source, st, pos, 0, env);
    case Pdp(_, onAllow, onDeny) =>
      PureListIsQuiet(onAllow, src, st, pos + [0], 0, env);
      PureListIsQuiet(onDeny, src, st, pos + [1], 0, env);
    case _ =>
  }

  lemma {:induction false} PureListIsQuiet(es: seq<Effect>, src: string, st: State, pos: Pos, k: nat, env: Env)
    requires PureLeavesAreQuiet(env) && !AnyMutation(es)
    ensures Quiet(Walk(es, src, st, pos, k, env), st)
    decreases es
  {
    if es != [] {
      PureIsQuiet(es[0], src, st, pos + [k], env);
      PureListIsQuiet(es[1..], src, st, pos, k + 1, env);
    }
  }

  /** Whatever the branches do, a parallel block keeps the outer state. */
  lemma {:induction false} MergeIsQuiet(slots: seq<Slot>, st: State)
    ensures Quiet(Merge(slots, st), st)
  {
    if slots != [] { MergeIsQuiet(slots[1..], st); }
  }

  // ----- the engine's pure effects -----

  lemma LeafQuiet(e: Effect, src: string, st: State, pos: Pos, phase: Phase, w: World)
    requires IsLeaf(e) && !Mutates(e)
    ensures Quiet(LeafRun(e, src, st, pos, phase, w), st)
  {
  }

  lemma EngineIsQuiet(phase: Phase, w: World)
    ensures PureLeavesAreQuiet(In(phase, w))
  {
    var env := In(phase, w);
    forall e, src, st, pos | IsLeaf(e) && !Mutates(e) ensures Quiet(env.leaf(e, src, st, pos), st) {
      LeafQuiet(e, src, st, pos, phase, w);
    }
  }

  /** Pure effects leave bag, payload and flags alone in every evaluation by the engine. */
  lemma PureEffectsLeaveNoTrace(e: Effect, src: string, st: State, pos: Pos, phase: Phase, w: World)
    requires !ContainsMutation(e)
    ensures Quiet(Exec(e, src, st, pos, In(phase, w)), st)
  {
    EngineIsQuiet(phase, w);
    PureIsQuiet(e, src, st, pos, In(phase, w));
  }
}
