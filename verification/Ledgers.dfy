/** What an event leads to is there at the end of a run that is not denied: one induction over effect
    trees for every claim about logged events and the constraints kept. */
module Ledgers {
  import opened Ir
  import opened World
  import opened Runs
  import opened Trees
  import opened Scheduling

  /** Do the constraints of a run account for one of its events? */
  type Account = (Event, seq<CandidateConstraint>) -> bool

  /** More never hurts, and PDP calls leave nothing to account for. */
  ghost predicate Cumulative(ok: Account)
  {
    && (forall ev, c1, c2 :: ok(ev, c1) ==> ok(ev, c1 + c2) && ok(ev, c2 + c1))
    && (forall ev: Event, c :: ev.PdpCalled? ==> ok(ev, c))
  }

  ghost predicate AllOk(log: seq<Event>, constraints: seq<CandidateConstraint>, ok: Account)
  {
    forall i :: 0 <= i < |log| ==> ok(log[i], constraints)
  }

  /** A run that is not denied accounts for all its events. */
  ghost predicate Balanced(r: Run, ok: Account)
  {
    !r.outcome.Halt? ==> AllOk(r.log, r.constraints, ok)
  }

  ghost predicate LeavesBalance(env: Env, ok: Account)
  {
    forall e, src, st, pos :: IsLeaf(e) ==> Balanced(env.leaf(e, src, st, pos), ok)
  }

  lemma Together(l1: seq<Event>, c1: seq<CandidateConstraint>, l2: seq<Event>, c2: seq<CandidateConstraint>,
                 ok: Account)
    requires Cumulative(ok) && AllOk(l1, c1, ok) && AllOk(l2, c2, ok)
    ensures AllOk(l1 + l2, c1 + c2, ok)
  {
    var log := l1 + l2;
    forall i | 0 <= i < |log| ensures ok(log[i], c1 + c2) {
      if i < |l1| { assert ok(l1[i], c1); } else { assert ok(l2[i - |l1|], c2); }
    }
  }

  lemma ThenBalances(a: Run, b: Run, ok: Account)
    requires Cumulative(ok) && Balanced(a, ok) && Balanced(b, ok)
    ensures Balanced(Then(a, b), ok)
  {
    if a.outcome.Continue? && !b.outcome.Halt? {
      Together(a.log, a.constraints, b.log, b.constraints, ok);
    }
  }

  lemma {:induction false} MergeBalances(rs: seq<Run>, slots: seq<Slot>, st: State, ok: Account)
    requires Cumulative(ok) && |slots| == |rs|
    requires forall i :: 0 <= i < |rs| ==> slots[i] == Completed(rs[i]) && !rs[i].outcome.Halt? && Balanced(rs[i], ok)
    ensures var r := Merge(slots, st); AllOk(r.log, r.constraints, ok)
    decreases |rs|
  {
    if rs != [] {
      MergeBalances(rs[1..], slots[1..], st, ok);
      var rest := Merge(slots[1..], st);
      assert slots[0] == Completed(rs[0]) && Balanced(rs[0], ok);
      Together(rs[0].log, rs[0].constraints, rest.log, rest.constraints, ok);
    }
  }

  lemma BlockBalances(rs: seq<Run>, pos: Pos, w: World, st: State, ok: Account)
    requires Cumulative(ok) && forall i :: 0 <= i < |rs| ==> Balanced(rs[i], ok)
    ensures Balanced(Merge(Slots(rs, pos, w), st), ok)
  {
    var slots := Slots(rs, pos, w);
    BlockVerdict(rs, pos, w, st);
    if !AnyHalt(rs) {
      assert forall i :: 0 <= i < |rs| ==> slots[i] == Completed(rs[i]);
      MergeBalances(rs, slots, st, ok);
    }
  }

  lemma {:induction false} ExecBalances(e: Effect, src: string, st: State, pos: Pos, env: Env, ok: Account)
    requires Cumulative(ok) && LeavesBalance(env, ok)
    ensures Balanced(Exec(e, src, st, pos, env), ok)
    decreases e
  {
    match e {
      case Sequential(body) => WalkBalances(body, src, st, pos, 0, env, ok);
      case Parallel(branches) =>
        BranchesBalance(branches, src, st, pos, 0, env, ok);
        BlockBalances(Branches(branches, src, st, pos, 0, env), pos, env.w, st, ok);
      case When(_, body, source) => WalkBalances(body, source, st, pos, 0, env, ok);
      case Pdp(call, onAllow, onDeny) =>
        WalkBalances(onAllow, src, st, pos + [0], 0, env, ok);
        WalkBalances(onDeny, src, st, pos + [1], 0, env, ok);
        var answer := env.w.pdp(pos, call, st.bag);
        if answer.PdpOk? {
          var r := if answer.decision.Allowed? then Walk(onAllow, src, st, pos + [0], 0, env)
                   else Walk(onDeny, src, st, pos + [1], 0, env);
          var ev := PdpCalled(pos, call, answer);
          if !r.outcome.Halt? { Together([ev], [], r.log, r.constraints, ok); }
          assert [] + r.constraints == r.constraints;
        }
      case _ =>
    }
  }

  lemma {:induction false} WalkBalances(es: seq<Effect>, src: string, st: State, pos: Pos, k: nat, env: Env,
                                        ok: Account)
    requires Cumulative(ok) && LeavesBalance(env, ok)
    ensures Balanced(Walk(es, src, st, pos, k, env), ok)
    decreases es
  {
    if es != [] {
      ExecBalances(es[0], src, st, pos + [k], env, ok);
      var r := Exec(es[0], src, st, pos + [k], env);
      WalkBalances(es[1..], src, r.st, pos, k + 1, env, ok);
      ThenBalances(r, Walk(es[1..], src, r.st, pos, k + 1, env), ok);
    }
  }

  lemma {:induction false} BranchesBalance(es: seq<Effect>, src: string, st: State, pos: Pos, k: nat, env: Env,
                                           ok: Account)
    requires Cumulative(ok) && LeavesBalance(env, ok)
    ensures forall i :: 0 <= i < |es| ==> Balanced(Branches(es, src, st, pos, k, env)[i], ok)
    decreases es
  {
    if es != [] {
      ExecBalances(es[0], src, st, pos + [k], env, ok);
      BranchesBalance(es[1..], src, st, pos, k + 1, env, ok);
    }
  }
}
