/** Which calls of a run are heard: all but those of parallel branches that were then cancelled.  The
    taints a run reports are, whatever its outcome, exactly those of the calls that are heard and those
    the configuration declares (`dispatch_effect` and `dispatch_parallel` in `evaluator.rs`). */
module Hearing {
  import opened Ir
  import opened World
  import opened Runs
  import opened Trees
  import opened Frames
  import opened Scheduling
  import opened Positions

  /** The calls of a run outside cancelled branches, in order. */
  function Heard(e: Effect, src: string, st: State, pos: Pos, env: Env): seq<Event>
  {
    match e
    case Sequential(body) => HeardWalk(body, src, st, pos, 0, env)
    case Parallel(branches) =>
      HeardBranches(branches, src, st, pos, 0, SomeHalt(Branches(branches, src, st, pos, 0, env), pos, env.w), env)
    case When(condition, body, source) =>
      if env.holds(condition, st.bag) then HeardWalk(body, source, st, pos, 0, env) else []
    case Pdp(call, onAllow, onDeny) =>
      var answer := env.w.pdp(pos, call, st.bag);
      [PdpCalled(pos, call, answer)] +
      (match answer
       case PdpErr(_) => []
       case PdpOk(Allowed) => HeardWalk(onAllow, src, st, pos + [0], 0, env)
       case PdpOk(_) => HeardWalk(onDeny, src, st, pos + [1], 0, env))
    case _ => env.leaf(e, src, st, pos).log
  }

  function HeardWalk(es: seq<Effect>, src: string, st: State, pos: Pos, k: nat, env: Env): seq<Event>
  {
    if es == [] then []
    else
      var r := Exec(es[0], src, st, pos + [k], env);
      Heard(es[0], src, st, pos + [k], env)
      + (if r.outcome.Continue? then HeardWalk(es[1..], src, r.st, pos, k + 1, env) else [])
  }

  function HeardBranches(es: seq<Effect>, src: string, st: State, pos: Pos, k: nat, halted: bool, env: Env): seq<Event>
  {
    if es == [] then []
    else
      (if halted && env.w.cancels(pos, k) then [] else Heard(es[0], src, st, pos + [k], env))
      + HeardBranches(es[1..], src, st, pos, k + 1, halted, env)
  }

  /** The calls that cancelled branches had made, in order. */
  function Unheard(e: Effect, src: string, st: State, pos: Pos, env: Env): seq<Event>
  {
    match e
    case Sequential(body) => UnheardWalk(body, src, st, pos, 0, env)
    case Parallel(branches) =>
      UnheardBranches(branches, src, st, pos, 0, SomeHalt(Branches(branches, src, st, pos, 0, env), pos, env.w), env)
    case When(condition, body, source) =>
      if env.holds(condition, st.bag) then UnheardWalk(body, source, st, pos, 0, env) else []
    case Pdp(call, onAllow, onDeny) =>
      (match env.w.pdp(pos, call, st.bag)
       case PdpErr(_) => []
       case PdpOk(Allowed) => UnheardWalk(onAllow, src, st, pos + [0], 0, env)
       case PdpOk(_) => UnheardWalk(onDeny, src, st, pos + [1], 0, env))
    case _ => []
  }

  function UnheardWalk(es: seq<Effect>, src: string, st: State, pos: Pos, k: nat, env: Env): seq<Event>
  {
    if es == [] then []
    else
      var r := Exec(es[0], src, st, pos + [k], env);
      Unheard(es[0], src, st, pos + [k], env)
      + (if r.outcome.Continue? then UnheardWalk(es[1..], src, r.st, pos, k + 1, env) else [])
  }

  function UnheardBranches(es: seq<Effect>, src: string, st: State, pos: Pos, k: nat, halted: bool,
                           env: Env): seq<Event>
  {
    if es == [] then []
    else
      (if halted && env.w.cancels(pos, k) then Made(Exec(es[0], src, st, pos + [k], env).log, 0, pos, k, env.w)
       else Unheard(es[0], src, st, pos + [k], env))
      + UnheardBranches(es[1..], src, st, pos, k + 1, halted, env)
  }

  // ----- emitting and reporting -----

  /** A property of taints to look for. */
  type Wanted = TaintEvent -> bool

  predicate AnyTaint(taints: seq<TaintEvent>, wanted: Wanted) { exists i :: 0 <= i < |taints| && wanted(taints[i]) }

  /** A plugin call whose answer carries such a taint. */
  predicate Emits(ev: Event, wanted: Wanted)
  {
    ev.PluginCalled? && ev.plugin.PluginOk? && AnyTaint(ev.plugin.taints, wanted)
  }

  predicate AnyEmits(log: seq<Event>, wanted: Wanted) { exists i :: 0 <= i < |log| && Emits(log[i], wanted) }

  /** What is emitted is reported; and where nothing is declared, nothing else is. */
  predicate Speaks(log: seq<Event>, taints: seq<TaintEvent>, quiet: bool, wanted: Wanted)
  {
    && (AnyEmits(log, wanted) ==> AnyTaint(taints, wanted))
    && (quiet && AnyTaint(taints, wanted) ==> AnyEmits(log, wanted))
  }

  lemma AnyTaintConcat(a: seq<TaintEvent>, b: seq<TaintEvent>, wanted: Wanted)
    ensures AnyTaint(a + b, wanted) <==> AnyTaint(a, wanted) || AnyTaint(b, wanted)
  {
    if AnyTaint(a, wanted) { var i :| 0 <= i < |a| && wanted(a[i]); assert wanted((a + b)[i]); }
    if AnyTaint(b, wanted) { var i :| 0 <= i < |b| && wanted(b[i]); assert wanted((a + b)[|a| + i]); }
  }

  lemma AnyEmitsConcat(a: seq<Event>, b: seq<Event>, wanted: Wanted)
    ensures AnyEmits(a + b, wanted) <==> AnyEmits(a, wanted) || AnyEmits(b, wanted)
  {
    if AnyEmits(a, wanted) { var i :| 0 <= i < |a| && Emits(a[i], wanted); assert Emits((a + b)[i], wanted); }
    if AnyEmits(b, wanted) { var i :| 0 <= i < |b| && Emits(b[i], wanted); assert Emits((a + b)[|a| + i], wanted); }
  }

  lemma SpeaksConcat(l1: seq<Event>, t1: seq<TaintEvent>, q1: bool, l2: seq<Event>, t2: seq<TaintEvent>, q2: bool,
                     wanted: Wanted)
    requires Speaks(l1, t1, q1, wanted) && Speaks(l2, t2, q2, wanted)
    ensures Speaks(l1 + l2, t1 + t2, q1 && q2, wanted)
  {
    AnyEmitsConcat(l1, l2, wanted);
    AnyTaintConcat(t1, t2, wanted);
  }

  // ----- over effect trees -----

  ghost predicate LeavesSpeak(env: Env, quiet: Effect -> bool, wanted: Wanted)
  {
    forall e, src, st, pos :: IsLeaf(e) ==>
      var r := env.leaf(e, src, st, pos); Speaks(r.log, r.taints, quiet(e), wanted)
  }

  lemma {:induction false} ExecSpeaks(e: Effect, src: string, st: State, pos: Pos, env: Env, quiet: Effect -> bool,
                                      wanted: Wanted)
    requires LeavesSpeak(env, quiet, wanted)
    ensures Speaks(Heard(e, src, st, pos, env), Exec(e, src, st, pos, env).taints, TreeLeaves(e, quiet), wanted)
    decreases e
  {
    match e {
      case Sequential(body) => WalkSpeaks(body, src, st, pos, 0, env, quiet, wanted);
      case When(_, body, source) => WalkSpeaks(body, source, st, pos, 0, env, quiet, wanted);
      case Parallel(branches) => BlockSpeaks(branches, src, st, pos, env, quiet, wanted);
      case Pdp(call, onAllow, onDeny) =>
        WalkSpeaks(onAllow, src, st, pos + [0], 0, env, quiet, wanted);
        WalkSpeaks(onDeny, src, st, pos + [1], 0, env, quiet, wanted);
        var ev := PdpCalled(pos, call, env.w.pdp(pos, call, st.bag));
        AnyEmitsConcat([ev], HeardWalk(onAllow, src, st, pos + [0], 0, env), wanted);
        AnyEmitsConcat([ev], HeardWalk(onDeny, src, st, pos + [1], 0, env), wanted);
        assert !AnyEmits([ev], wanted);
      case _ =>
    }
  }

  lemma {:induction false} WalkSpeaks(es: seq<Effect>, src: string, st: State, pos: Pos, k: nat, env: Env,
                                      quiet: Effect -> bool, wanted: Wanted)
    requires LeavesSpeak(env, quiet, wanted)
    ensures Speaks(HeardWalk(es, src, st, pos, k, env), Walk(es, src, st, pos, k, env).taints, AllLeaves(es, quiet),
                   wanted)
    decreases es
  {
    if es != [] {
      var r, heard := Exec(es[0], src, st, pos + [k], env), Heard(es[0], src, st, pos + [k], env);
      ExecSpeaks(es[0], src, st, pos + [k], env, quiet, wanted);
      if r.outcome.Continue? {
        WalkSpeaks(es[1..], src, r.st, pos, k + 1, env, quiet, wanted);
        SpeaksConcat(heard, r.taints, TreeLeaves(es[0], quiet), HeardWalk(es[1..], src, r.st, pos, k + 1, env),
                     Walk(es[1..], src, r.st, pos, k + 1, env).taints, AllLeaves(es[1..], quiet), wanted);
      } else {
        assert heard + [] == heard;
      }
    }
  }

  function SlotOf(r: Run, pos: Pos, k: nat, halted: bool, w: World): Slot
  {
    if halted && w.cancels(pos, k) then Cancelled(Made(r.log, 0, pos, k, w)) else Completed(r)
  }

  /** The slots of a block, from branch `k` on. */
  ghost predicate Scheduled(es: seq<Effect>, src: string, st: State, pos: Pos, k: nat, halted: bool, slots: seq<Slot>,
                            env: Env)
  {
    |slots| == |es| && forall i :: 0 <= i < |es| ==>
      slots[i] == SlotOf(Branches(es, src, st, pos, k, env)[i], pos, k + i, halted, env.w)
  }

  lemma ScheduledTail(es: seq<Effect>, src: string, st: State, pos: Pos, k: nat, halted: bool, slots: seq<Slot>,
                      env: Env)
    requires es != [] && Scheduled(es, src, st, pos, k, halted, slots, env)
    ensures Scheduled(es[1..], src, st, pos, k + 1, halted, slots[1..], env)
    ensures slots[0] == SlotOf(Exec(es[0], src, st, pos + [k], env), pos, k, halted, env.w)
  {
    var rs, later := Branches(es, src, st, pos, k, env), Branches(es[1..], src, st, pos, k + 1, env);
    assert slots[0] == SlotOf(rs[0], pos, k + 0, halted, env.w);
    forall i | 0 <= i < |es[1..]| ensures slots[1..][i] == SlotOf(later[i], pos, k + 1 + i, halted, env.w) {
      assert slots[1..][i] == slots[i + 1] && rs[i + 1] == later[i];
      assert slots[i + 1] == SlotOf(rs[i + 1], pos, k + (i + 1), halted, env.w);
    }
  }

  lemma SlotsAreScheduled(es: seq<Effect>, src: string, st: State, pos: Pos, env: Env)
    ensures var rs := Branches(es, src, st, pos, 0, env);
      Scheduled(es, src, st, pos, 0, SomeHalt(rs, pos, env.w), Slots(rs, pos, env.w), env)
  {
  }

  /** Branch by branch, a slot that completed is heard and one that was cancelled is not. */
  lemma {:induction false} BranchesSpeak(es: seq<Effect>, src: string, st: State, pos: Pos, k: nat, halted: bool,
                                         env: Env, slots: seq<Slot>, quiet: Effect -> bool, wanted: Wanted)
    requires LeavesSpeak(env, quiet, wanted) && Scheduled(es, src, st, pos, k, halted, slots, env)
    ensures Speaks(HeardBranches(es, src, st, pos, k, halted, env), Merge(slots, st).taints, AllLeaves(es, quiet),
                   wanted)
    decreases es, 0
  {
    if es != [] {
      ScheduledTail(es, src, st, pos, k, halted, slots, env);
      BranchesSpeak(es[1..], src, st, pos, k + 1, halted, env, slots[1..], quiet, wanted);
      var later, rest := HeardBranches(es[1..], src, st, pos, k + 1, halted, env), Merge(slots[1..], st);
      if slots[0].Cancelled? {
        assert [] + later == later;
      } else {
        ExecSpeaks(es[0], src, st, pos + [k], env, quiet, wanted);
        SpeaksConcat(Heard(es[0], src, st, pos + [k], env), Exec(es[0], src, st, pos + [k], env).taints,
                     TreeLeaves(es[0], quiet), later, rest.taints, AllLeaves(es[1..], quiet), wanted);
      }
    }
  }

  lemma {:induction false} BlockSpeaks(es: seq<Effect>, src: string, st: State, pos: Pos, env: Env,
                                       quiet: Effect -> bool,
                                       wanted: Wanted)
    requires LeavesSpeak(env, quiet, wanted)
    ensures Speaks(Heard(Parallel(es), src, st, pos, env), Exec(Parallel(es), src, st, pos, env).taints,
                   AllLeaves(es, quiet), wanted)
    decreases es, 1
  {
    var rs := Branches(es, src, st, pos, 0, env);
    SlotsAreScheduled(es, src, st, pos, env);
    BranchesSpeak(es, src, st, pos, 0, SomeHalt(rs, pos, env.w), env, Slots(rs, pos, env.w), quiet, wanted);
  }

  // ----- what is not heard -----

  ghost predicate Sums(heard: seq<Event>, unheard: seq<Event>, log: seq<Event>)
  {
    multiset(log) == multiset(heard) + multiset(unheard)
  }

  lemma SumsConcat(h1: seq<Event>, u1: seq<Event>, l1: seq<Event>, h2: seq<Event>, u2: seq<Event>, l2: seq<Event>)
    requires Sums(h1, u1, l1) && Sums(h2, u2, l2)
    ensures Sums(h1 + h2, u1 + u2, l1 + l2)
  {
  }

  /** Every call is heard or was made by a branch that was cancelled, and a run that is not denied has
      none of the latter. */
  ghost predicate Accounted(heard: seq<Event>, unheard: seq<Event>, r: Run)
  {
    && Sums(heard, unheard, r.log)
    && (!r.outcome.Halt? ==> heard == r.log && unheard == [])
  }

  lemma {:induction false} ExecAccounted(e: Effect, src: string, st: State, pos: Pos, env: Env)
    ensures Accounted(Heard(e, src, st, pos, env), Unheard(e, src, st, pos, env), Exec(e, src, st, pos, env))
    decreases e
  {
    match e {
      case Sequential(body) => WalkAccounted(body, src, st, pos, 0, env);
      case When(_, body, source) => WalkAccounted(body, source, st, pos, 0, env);
      case Parallel(branches) => BlockAccounted(branches, src, st, pos, env);
      case Pdp(call, onAllow, onDeny) =>
        WalkAccounted(onAllow, src, st, pos + [0], 0, env);
        WalkAccounted(onDeny, src, st, pos + [1], 0, env);
        PdpAccounted(call, onAllow, onDeny, src, st, pos, env);
      case _ => AllHeard(env.leaf(e, src, st, pos).log);
    }
  }

  lemma AllHeard(log: seq<Event>)
    ensures Sums(log, [], log)
  {
  }

  ghost predicate ListAccounted(es: seq<Effect>, src: string, st: State, pos: Pos, env: Env)
  {
    Accounted(HeardWalk(es, src, st, pos, 0, env), UnheardWalk(es, src, st, pos, 0, env),
              Walk(es, src, st, pos, 0, env))
  }

  lemma PdpAccounted(call: PdpCall, onAllow: seq<Effect>, onDeny: seq<Effect>, src: string, st: State, pos: Pos,
                     env: Env)
    requires ListAccounted(onAllow, src, st, pos + [0], env) && ListAccounted(onDeny, src, st, pos + [1], env)
    ensures var e := Pdp(call, onAllow, onDeny);
      Accounted(Heard(e, src, st, pos, env), Unheard(e, src, st, pos, env), Exec(e, src, st, pos, env))
  {
    var answer, q := env.w.pdp(pos, call, st.bag), Exec(Pdp(call, onAllow, onDeny), src, st, pos, env);
    var ev := PdpCalled(pos, call, answer);
    if answer.PdpErr? {
      AfterCall(ev, [], [], Done(st), q);
    } else if answer.decision.Allowed? {
      AfterCall(ev, HeardWalk(onAllow, src, st, pos + [0], 0, env), UnheardWalk(onAllow, src, st, pos + [0], 0, env),
                Walk(onAllow, src, st, pos + [0], 0, env), q);
    } else {
      AfterCall(ev, HeardWalk(onDeny, src, st, pos + [1], 0, env), UnheardWalk(onDeny, src, st, pos + [1], 0, env),
                Walk(onDeny, src, st, pos + [1], 0, env), q);
    }
  }

  lemma AfterCall(ev: Event, heard: seq<Event>, unheard: seq<Event>, r: Run, q: Run)
    requires Accounted(heard, unheard, r) && q.log == [ev] + r.log && (r.outcome.Halt? ==> q.outcome.Halt?)
    ensures Accounted([ev] + heard, unheard, q)
  {
    AllHeard([ev]);
    SumsConcat([ev], [], [ev], heard, unheard, r.log);
    assert [] + unheard == unheard;
  }

  lemma {:induction false} WalkAccounted(es: seq<Effect>, src: string, st: State, pos: Pos, k: nat, env: Env)
    ensures Accounted(HeardWalk(es, src, st, pos, k, env), UnheardWalk(es, src, st, pos, k, env),
                      Walk(es, src, st, pos, k, env))
    decreases es
  {
    if es != [] {
      ExecAccounted(es[0], src, st, pos + [k], env);
      var r := Exec(es[0], src, st, pos + [k], env);
      var heard, unheard := Heard(es[0], src, st, pos + [k], env), Unheard(es[0], src, st, pos + [k], env);
      if r.outcome.Continue? {
        WalkAccounted(es[1..], src, r.st, pos, k + 1, env);
        SumsConcat(heard, unheard, r.log, HeardWalk(es[1..], src, r.st, pos, k + 1, env),
                   UnheardWalk(es[1..], src, r.st, pos, k + 1, env), Walk(es[1..], src, r.st, pos, k + 1, env).log);
      } else {
        assert heard + [] == heard && unheard + [] == unheard;
      }
    }
  }

  lemma {:induction false} BranchesAccounted(es: seq<Effect>, src: string, st: State, pos: Pos, k: nat, halted: bool,
                                             slots: seq<Slot>, env: Env)
    requires Scheduled(es, src, st, pos, k, halted, slots, env)
    ensures var denied := halted || AnyHalt(Branches(es, src, st, pos, k, env));
      Accounted(HeardBranches(es, src, st, pos, k, halted, env), UnheardBranches(es, src, st, pos, k, halted, env),
                Merge(slots, st).(outcome := if denied then Halt(Allowed) else Outcome.Continue))
    decreases es, 0
  {
    if es != [] {
      ScheduledTail(es, src, st, pos, k, halted, slots, env);
      var r, rs := Exec(es[0], src, st, pos + [k], env), Branches(es, src, st, pos, k, env);
      assert rs[0] == r && rs[1..] == Branches(es[1..], src, st, pos, k + 1, env);
      BranchesAccounted(es[1..], src, st, pos, k + 1, halted, slots[1..], env);
      ExecAccounted(es[0], src, st, pos + [k], env);
      var cut := halted && env.w.cancels(pos, k);
      var heard := if cut then [] else Heard(es[0], src, st, pos + [k], env);
      var unheard := if cut then Made(r.log, 0, pos, k, env.w) else Unheard(es[0], src, st, pos + [k], env);
      SumsConcat(heard, unheard, if cut then unheard else r.log,
                 HeardBranches(es[1..], src, st, pos, k + 1, halted, env),
                 UnheardBranches(es[1..], src, st, pos, k + 1, halted, env), Merge(slots[1..], st).log);
    }
  }

  lemma {:induction false} BlockAccounted(es: seq<Effect>, src: string, st: State, pos: Pos, env: Env)
    ensures Accounted(Heard(Parallel(es), src, st, pos, env), Unheard(Parallel(es), src, st, pos, env),
                      Exec(Parallel(es), src, st, pos, env))
    decreases es, 1
  {
    var rs := Branches(es, src, st, pos, 0, env);
    SlotsAreScheduled(es, src, st, pos, env);
    BlockVerdict(rs, pos, env.w, st);
    BranchesAccounted(es, src, st, pos, 0, SomeHalt(rs, pos, env.w), Slots(rs, pos, env.w), env);
  }

  /** Each call of the log is in exactly one of the two. */
  ghost predicate Parted(heard: seq<Event>, unheard: seq<Event>, log: seq<Event>)
  {
    && Sums(heard, unheard, log)
    && forall x :: x in log ==> (x in heard <==> x !in unheard)
  }

  lemma {:induction false} DistinctOnce(log: seq<Event>, x: Event)
    requires Distinct(log)
    ensures multiset(log)[x] <= 1
    decreases |log|
  {
    if log != [] {
      assert log == [log[0]] + log[1..] && Distinct(log[1..]);
      DistinctOnce(log[1..], x);
    }
  }

  /** Since no call is made twice from one place, none is both heard and unheard. */
  lemma DistinctParts(heard: seq<Event>, unheard: seq<Event>, log: seq<Event>)
    requires Distinct(log) && Sums(heard, unheard, log)
    ensures Parted(heard, unheard, log)
  {
    forall x | x in log ensures x in heard <==> x !in unheard {
      DistinctOnce(log, x);
      assert x in multiset(log) && multiset(log)[x] == multiset(heard)[x] + multiset(unheard)[x];
      assert (x in heard <==> multiset(heard)[x] > 0) && (x in unheard <==> multiset(unheard)[x] > 0);
    }
  }

  // ----- calls of a cancelled branch that were under way together -----

  /** An inner parallel block cut off after its second call and before its first. */
  lemma InnerCallAlone(x: Effect, y: Effect, z: Effect, src: string, st: State, pos: Pos, env: Env)
    requires env.w.cancels(pos, 0) && !env.w.cancels(pos, 1) && !env.w.made(pos, 0, 0) && env.w.made(pos, 0, 1)
    requires !SomeHalt(Branches([x, y], src, st, pos + [0], 0, env), pos + [0], env.w)
    requires |Exec(x, src, st, pos + [0] + [0], env).log| == 1 && |Exec(y, src, st, pos + [0] + [1], env).log| == 1
    requires Exec(z, src, st, pos + [1], env).outcome.Halt?
    ensures Exec(Parallel([Parallel([x, y]), z]), src, st, pos, env).log ==
      Exec(y, src, st, pos + [0] + [1], env).log + Exec(z, src, st, pos + [1], env).log
  {
    var inner := Exec(Parallel([x, y]), src, st, pos + [0], env);
    var rx, ry := Exec(x, src, st, pos + [0] + [0], env), Exec(y, src, st, pos + [0] + [1], env);
    BothLogged(x, y, src, st, pos + [0], env);
    assert inner.log[1..] == ry.log && ry.log[1..] == [];
    assert Made(inner.log[1..], 1, pos, 0, env.w) == [ry.log[0]] + [] == ry.log;
    assert Made(inner.log, 0, pos, 0, env.w) == [] + ry.log == ry.log;
    FirstCancelled(Parallel([x, y]), z, src, st, pos, env);
  }

  lemma TwoBranches(x: Effect, y: Effect, src: string, st: State, pos: Pos, env: Env)
    ensures Branches([x, y], src, st, pos, 0, env) ==
      [Exec(x, src, st, pos + [0], env), Exec(y, src, st, pos + [1], env)]
  {
    assert [x, y][1..] == [y] && [y][1..] == [];
    assert Branches([y], src, st, pos, 1, env) == [Exec(y, src, st, pos + [1], env)];
  }

  lemma TwoSlots(first: Slot, second: Slot, st: State)
    requires second.Completed?
    ensures var r := Merge([first, second], st);
      && r.log == (if first.Completed? then first.run.log else first.partial) + second.run.log
      && r.taints == (if first.Completed? then first.run.taints else []) + second.run.taints
      && (second.run.outcome.Halt? ==> r.outcome.Halt?)
  {
    assert [first, second][1..] == [second] && [second][1..] == [];
    assert Merge([second][1..], st) == Done(st);
    assert second.run.log + [] == second.run.log && second.run.taints + [] == second.run.taints;
    assert [] + second.run.taints == second.run.taints;
  }

  lemma BothLogged(x: Effect, y: Effect, src: string, st: State, pos: Pos, env: Env)
    requires !SomeHalt(Branches([x, y], src, st, pos, 0, env), pos, env.w)
    ensures Exec(Parallel([x, y]), src, st, pos, env).log ==
      Exec(x, src, st, pos + [0], env).log + Exec(y, src, st, pos + [1], env).log
  {
    var rx, ry := Exec(x, src, st, pos + [0], env), Exec(y, src, st, pos + [1], env);
    TwoBranches(x, y, src, st, pos, env);
    assert Slots([rx, ry], pos, env.w) == [Completed(rx), Completed(ry)];
    TwoSlots(Completed(rx), Completed(ry), st);
  }

  /** The first of two branches is cancelled by the second: only part of its calls is logged, and none
      of its taints. */
  lemma FirstCancelled(x: Effect, y: Effect, src: string, st: State, pos: Pos, env: Env)
    requires env.w.cancels(pos, 0) && !env.w.cancels(pos, 1) && Exec(y, src, st, pos + [1], env).outcome.Halt?
    ensures var r, ry := Exec(Parallel([x, y]), src, st, pos, env), Exec(y, src, st, pos + [1], env);
      && r.outcome.Halt? && r.taints == ry.taints
      && r.log == Made(Exec(x, src, st, pos + [0], env).log, 0, pos, 0, env.w) + ry.log
  {
    var rx, ry := Exec(x, src, st, pos + [0], env), Exec(y, src, st, pos + [1], env);
    TwoBranches(x, y, src, st, pos, env);
    assert SomeHalt([rx, ry], pos, env.w) by { assert [rx, ry][1].outcome.Halt?; }
    var made := Cancelled(Made(rx.log, 0, pos, 0, env.w));
    assert Slots([rx, ry], pos, env.w) == [made, Completed(ry)];
    TwoSlots(made, Completed(ry), st);
    assert [] + ry.taints == ry.taints;
  }
}
