/** Parallel blocks under every schedule (`dispatch_parallel` in `evaluator.rs`): for pure
    branches and invokers that answer the same wherever they are called from, running them
    concurrently with cancel-on-deny decides what running them in order decides. */
module Scheduling {
  import opened Ir
  import opened World
  import opened Runs
  import opened Leaves
  import opened Trees
  import opened Engine
  import opened Purity

  /** The same verdict, and when there is no deny the same taints and constraints in order. */
  predicate Similar(r1: Run, r2: Run)
  {
    && (r1.outcome.Halt? <==> r2.outcome.Halt?)
    && (!r1.outcome.Halt? ==> r1.taints == r2.taints && r1.constraints == r2.constraints)
  }

  /** Both environments answer alike from every position; their schedules may differ. */
  ghost predicate Agree(env1: Env, env2: Env)
  {
    && (forall c, bag :: env1.holds(c, bag) == env2.holds(c, bag))
    && (forall p, q, call, bag :: env1.w.pdp(p, call, bag) == env2.w.pdp(q, call, bag))
    && (forall e, src, st, p, q :: IsLeaf(e) && !Mutates(e) ==>
          Similar(env1.leaf(e, src, st, p), env2.leaf(e, src, st, q)))
    && PureLeavesAreQuiet(env1) && PureLeavesAreQuiet(env2)
  }

  lemma AgreeSymmetric(env1: Env, env2: Env)
    requires Agree(env1, env2)
    ensures Agree(env2, env1)
  {
    forall e, src, st, p, q | IsLeaf(e) && !Mutates(e)
      ensures Similar(env2.leaf(e, src, st, p), env1.leaf(e, src, st, q))
    {
      assert Similar(env1.leaf(e, src, st, q), env2.leaf(e, src, st, p));
    }
  }

  predicate AnyHalt(rs: seq<Run>) { exists i :: 0 <= i < |rs| && rs[i].outcome.Halt? }

  function TaintsOf(rs: seq<Run>): seq<TaintEvent>
  {
    if rs == [] then [] else rs[0].taints + TaintsOf(rs[1..])
  }

  function ConstraintsOf(rs: seq<Run>): seq<CandidateConstraint>
  {
    if rs == [] then [] else rs[0].constraints + ConstraintsOf(rs[1..])
  }

  // ----- what a schedule can do -----

  /** Slot `i` completed with a halt and no completed slot before it halted. */
  ghost predicate FirstHalt(slots: seq<Slot>, i: nat)
  {
    && i < |slots| && slots[i].Completed? && slots[i].run.outcome.Halt?
    && forall j :: 0 <= j < i ==> slots[j].Cancelled? || !slots[j].run.outcome.Halt?
  }

  lemma {:induction false} MergeReports(slots: seq<Slot>, st: State)
    ensures forall i: nat :: FirstHalt(slots, i) ==> Merge(slots, st).outcome == slots[i].run.outcome
    ensures (forall i :: 0 <= i < |slots| ==> slots[i].Cancelled? || !slots[i].run.outcome.Halt?)
      ==> Merge(slots, st).outcome.Continue?
  {
    if slots != [] {
      MergeReports(slots[1..], st);
      assert forall j :: 0 <= j < |slots| - 1 ==> slots[1..][j] == slots[j + 1];
      forall i: nat | FirstHalt(slots, i) ensures Merge(slots, st).outcome == slots[i].run.outcome {
        if i > 0 {
          assert FirstHalt(slots[1..], i - 1);
        }
      }
    }
  }

  lemma {:induction false} FindFirstHalt(slots: seq<Slot>, i: nat) returns (j: nat)
    requires i < |slots| && slots[i].Completed? && slots[i].run.outcome.Halt?
    ensures FirstHalt(slots, j)
    decreases i
  {
    if k :| 0 <= k < i && slots[k].Completed? && slots[k].run.outcome.Halt? {
      j := FindFirstHalt(slots, k);
    } else {
      j := i;
    }
  }

  lemma {:induction false} MergeAllCompleted(rs: seq<Run>, slots: seq<Slot>, st: State)
    requires |slots| == |rs| && forall i :: 0 <= i < |rs| ==> slots[i] == Completed(rs[i])
    ensures Merge(slots, st).taints == TaintsOf(rs) && Merge(slots, st).constraints == ConstraintsOf(rs)
  {
    if rs != [] { MergeAllCompleted(rs[1..], slots[1..], st); }
  }

  /** Under every schedule a block halts exactly when some branch alone halts; the denial it
      reports is the first among the branches that completed; without a halt nothing is cancelled. */
  lemma BlockVerdict(rs: seq<Run>, pos: Pos, w: World, st: State)
    ensures var r := Merge(Slots(rs, pos, w), st);
      && (r.outcome.Halt? <==> AnyHalt(rs))
      && !r.outcome.Suspend?
      && (r.outcome.Halt? ==> exists i: nat :: FirstHalt(Slots(rs, pos, w), i) && r.outcome == rs[i].outcome)
      && (!r.outcome.Halt? ==> r.taints == TaintsOf(rs) && r.constraints == ConstraintsOf(rs))
  {
    var slots := Slots(rs, pos, w);
    MergeReports(slots, st);
    MergeIsQuiet(slots, st);
    if AnyHalt(rs) {
      var i: nat;
      if SomeHalt(rs, pos, w) {
        i :| 0 <= i < |rs| && !w.cancels(pos, i) && rs[i].outcome.Halt?;
      } else {
        i :| 0 <= i < |rs| && rs[i].outcome.Halt?;
      }
      assert slots[i] == Completed(rs[i]);
      var j := FindFirstHalt(slots, i);
      assert slots[j] == Completed(rs[j]);
    } else {
      assert forall i :: 0 <= i < |rs| ==> slots[i] == Completed(rs[i]);
      MergeAllCompleted(rs, slots, st);
    }
  }

  // ----- pure trees do not notice schedules or positions -----

  lemma {:induction false} PureSimilar(e: Effect, src: string, st: State, p1: Pos, p2: Pos, env1: Env, env2: Env)
    requires Agree(env1, env2) && !ContainsMutation(e)
    ensures Similar(Exec(e, src, st, p1, env1), Exec(e, src, st, p2, env2))
    decreases e
  {
    match e
    case Sequential(body) => PureListSimilar(body, src, st, p1, 0, p2, 0, env1, env2);
    case Parallel(branches) =>
      BranchesSimilar(branches, src, st, p1, 0, p2, 0, env1, env2);
      BlockVerdict(Branches(branches, src, st, p1, 0, env1), p1, env1.w, st);
      BlockVerdict(Branches(branches, src, st, p2, 0, env2), p2, env2.w, st);
    case When(_, body, source) => PureListSimilar(body, source, st, p1, 0, p2, 0, env1, env2);
    case Pdp(_, onAllow, onDeny) =>
      PureListSimilar(onAllow, src, st, p1 + [0], 0, p2 + [0], 0, env1, env2);
      PureListSimilar(onDeny, src, st, p1 + [1], 0, p2 + [1], 0, env1, env2);
      PureListIsQuiet(onDeny, src, st, p1 + [1], 0, env1);
      PureListIsQuiet(onDeny, src, st, p2 + [1], 0, env2);
    case _ =>
  }

  lemma {:induction false} PureListSimilar(es: seq<Effect>, src: string, st: State, p1: Pos, k1: nat, p2: Pos, k2: nat,
                                           env1: Env, env2: Env)
    requires Agree(env1, env2) && !AnyMutation(es)
    ensures Similar(Walk(es, src, st, p1, k1, env1), Walk(es, src, st, p2, k2, env2))
    decreases es
  {
    if es != [] {
      PureSimilar(es[0], src, st, p1 + [k1], p2 + [k2], env1, env2);
      PureIsQuiet(es[0], src, st, p1 + [k1], env1);
      PureIsQuiet(es[0], src, st, p2 + [k2], env2);
      PureListSimilar(es[1..], src, st, p1, k1 + 1, p2, k2 + 1, env1, env2);
    }
  }

  lemma {:induction false} BranchesSimilar(es: seq<Effect>, src: string, st: State, p1: Pos, k1: nat, p2: Pos, k2: nat,
                                           env1: Env, env2: Env)
    requires Agree(env1, env2) && !AnyMutation(es)
    ensures var rs1, rs2 := Branches(es, src, st, p1, k1, env1), Branches(es, src, st, p2, k2, env2);
      && (AnyHalt(rs1) <==> AnyHalt(rs2))
      && (!AnyHalt(rs1) ==> TaintsOf(rs1) == TaintsOf(rs2) && ConstraintsOf(rs1) == ConstraintsOf(rs2))
    decreases es
  {
    if es != [] {
      PureSimilar(es[0], src, st, p1 + [k1], p2 + [k2], env1, env2);
      BranchesSimilar(es[1..], src, st, p1, k1 + 1, p2, k2 + 1, env1, env2);
      var h1, h2 := Exec(es[0], src, st, p1 + [k1], env1), Exec(es[0], src, st, p2 + [k2], env2);
      HaltHead(h1, Branches(es[1..], src, st, p1, k1 + 1, env1));
      HaltHead(h2, Branches(es[1..], src, st, p2, k2 + 1, env2));
    }
  }

  lemma HaltHead(r: Run, rs: seq<Run>)
    ensures AnyHalt([r] + rs) <==> r.outcome.Halt? || AnyHalt(rs)
    ensures TaintsOf([r] + rs) == r.taints + TaintsOf(rs) &&
      ConstraintsOf([r] + rs) == r.constraints + ConstraintsOf(rs)
  {
    var all := [r] + rs;
    assert all[1..] == rs;
    if AnyHalt(rs) {
      var i :| 0 <= i < |rs| && rs[i].outcome.Halt?;
      assert all[i + 1] == rs[i];
    }
    if r.outcome.Halt? { assert all[0] == r; }
    if AnyHalt(all) && !r.outcome.Halt? {
      var i :| 0 <= i < |all| && all[i].outcome.Halt?;
      assert rs[i - 1] == all[i];
    }
  }

  /** Walking pure effects in order meets the branches one by one. */
  lemma {:induction false} WalkIsBranches(es: seq<Effect>, src: string, st: State, p1: Pos, k1: nat, p2: Pos, k2: nat,
                                          env1: Env, env2: Env)
    requires Agree(env1, env2) && !AnyMutation(es)
    ensures var r, rs := Walk(es, src, st, p1, k1, env1), Branches(es, src, st, p2, k2, env2);
      && (r.outcome.Halt? <==> AnyHalt(rs))
      && (!r.outcome.Halt? ==> r.taints == TaintsOf(rs) && r.constraints == ConstraintsOf(rs))
    decreases es
  {
    if es != [] {
      PureSimilar(es[0], src, st, p1 + [k1], p2 + [k2], env1, env2);
      PureIsQuiet(es[0], src, st, p1 + [k1], env1);
      WalkIsBranches(es[1..], src, st, p1, k1 + 1, p2, k2 + 1, env1, env2);
      HaltHead(Exec(es[0], src, st, p2 + [k2], env2), Branches(es[1..], src, st, p2, k2 + 1, env2));
    }
  }

  lemma {:induction false} BranchAt(es: seq<Effect>, src: string, st: State, pos: Pos, k: nat, env: Env, i: nat)
    requires i < |es|
    ensures Branches(es, src, st, pos, k, env)[i] == Exec(es[i], src, st, pos + [k + i], env)
    decreases i
  {
    if i > 0 { BranchAt(es[1..], src, st, pos, k + 1, env, i - 1); }
  }

  /** Schedule independence: whatever the schedules, `Parallel(es)` halts exactly when
      `Sequential(es)` does, the denial is one some branch gives alone, and without a denial both
      continue from the same state with the same taints and constraints in the same order. */
  lemma ParallelIsSequential(es: seq<Effect>, src: string, st: State, p1: Pos, p2: Pos, env1: Env, env2: Env)
    requires Agree(env1, env2) && !AnyMutation(es)
    ensures var par, sq := Exec(Parallel(es), src, st, p1, env1), Exec(Sequential(es), src, st, p2, env2);
      && Similar(par, sq)
      && Quiet(par, st) && Quiet(sq, st)
      && (par.outcome.Halt? ==>
            exists i :: 0 <= i < |es| && par.outcome == Exec(es[i], src, st, p1 + [i], env1).outcome)
  {
    var rs := Branches(es, src, st, p1, 0, env1);
    BlockVerdict(rs, p1, env1.w, st);
    MergeIsQuiet(Slots(rs, p1, env1.w), st);
    PureListIsQuiet(es, src, st, p2, 0, env2);
    AgreeSymmetric(env1, env2);
    WalkIsBranches(es, src, st, p2, 0, p1, 0, env2, env1);
    var par := Exec(Parallel(es), src, st, p1, env1);
    if par.outcome.Halt? {
      var i: nat :| FirstHalt(Slots(rs, p1, env1.w), i) && par.outcome == rs[i].outcome;
      BranchAt(es, src, st, p1, 0, env1, i);
    }
  }

  // ----- the engine -----

  /** Invokers that answer the same request the same way from everywhere, in both worlds. */
  ghost predicate SameAnswers(w1: World, w2: World)
  {
    && (forall p, q, call, bag :: w1.pdp(p, call, bag) == w2.pdp(q, call, bag))
    && (forall p, q, name, bag, inv :: w1.plugin(p, name, bag, inv) == w2.plugin(q, name, bag, inv))
    && w1.host == w2.host
  }

  lemma LeafSimilar(e: Effect, src: string, st: State, p: Pos, q: Pos, phase: Phase, w1: World, w2: World)
    requires IsLeaf(e) && !Mutates(e) && SameAnswers(w1, w2)
    ensures Similar(LeafRun(e, src, st, p, phase, w1), LeafRun(e, src, st, q, phase, w2))
  {
    if e.Plugin? {
      assert w1.plugin(p, e.name, st.bag, StepCall(phase)) == w2.plugin(q, e.name, st.bag, StepCall(phase));
    }
  }

  /** Schedule independence of the engine: with stateless deterministic invokers, every pure
      effect list gives the same verdict in parallel, under any schedule, as in sequence. */
  lemma EngineParallelIsSequential(es: seq<Effect>, src: string, st: State, p1: Pos, p2: Pos, phase: Phase, w1: World,
                                   w2: World)
    requires SameAnswers(w1, w2) && !AnyMutation(es)
    ensures var env1, env2 := In(phase, w1), In(phase, w2);
      var par, sq := Exec(Parallel(es), src, st, p1, env1), Exec(Sequential(es), src, st, p2, env2);
      && Similar(par, sq) && Quiet(par, st) && Quiet(sq, st)
      && (par.outcome.Halt? ==>
            exists i :: 0 <= i < |es| && par.outcome == Exec(es[i], src, st, p1 + [i], env1).outcome)
  {
    var env1, env2 := In(phase, w1), In(phase, w2);
    forall e, src, st, p, q | IsLeaf(e) && !Mutates(e)
      ensures Similar(env1.leaf(e, src, st, p), env2.leaf(e, src, st, q))
    {
      LeafSimilar(e, src, st, p, q, phase, w1, w2);
    }
    EngineIsQuiet(phase, w1);
    EngineIsQuiet(phase, w2);
    assert Agree(env1, env2);
    ParallelIsSequential(es, src, st, p1, p2, env1, env2);
  }
}
