/** Every call of a run is made from its own place in the tree, so answers that depend on the place
    are as general as invokers with memory. */
module Positions {
  import opened Text
  import opened Json
  import opened Ir
  import opened Attributes
  import opened World
  import opened Pipelines
  import opened Runs
  import opened Leaves
  import opened Trees
  import opened Engine

  /** Which invoker operation an event is. */
  function Kind(ev: Event): nat
  {
    match ev
    case PdpCalled(_, _, _) => 0
    case PluginCalled(_, _, _) => 1
    case DelegateCalled(_, _, _) => 2
    case ElicitDispatched(_, _, _) => 3
    case ElicitChecked(_, _, _, _) => 4
    case ElicitValidated(_, _, _, _) => 5
    case Restricted(_, _, _) => 6
  }

  /** No operation is called twice from one place. */
  predicate Distinct(log: seq<Event>)
  {
    forall i, j :: 0 <= i < j < |log| ==> log[i].pos != log[j].pos || Kind(log[i]) != Kind(log[j])
  }

  /** All calls are made at or below `pos`. */
  predicate Below(log: seq<Event>, pos: Pos) { forall i :: 0 <= i < |log| ==> pos <= log[i].pos }

  predicate IsUnder(p: Pos, pos: Pos, lo: nat, hi: nat)
  {
    |pos| < |p| && pos == p[..|pos|] && lo <= p[|pos|] < hi
  }

  /** All calls are made below children `lo` to `hi` of `pos`. */
  predicate Within(log: seq<Event>, pos: Pos, lo: nat, hi: nat)
  {
    forall i :: 0 <= i < |log| ==> IsUnder(log[i].pos, pos, lo, hi)
  }

  lemma BelowIsWithin(log: seq<Event>, pos: Pos, k: nat)
    requires Below(log, pos + [k])
    ensures Within(log, pos, k, k + 1)
  {
    forall i | 0 <= i < |log| ensures IsUnder(log[i].pos, pos, k, k + 1) {
      var p := log[i].pos;
      assert pos + [k] <= p;
      assert p[..|pos| + 1] == pos + [k];
      assert p[|pos|] == (pos + [k])[|pos|];
      assert p[..|pos|] == p[..|pos| + 1][..|pos|];
    }
  }

  lemma WithinIsBelow(log: seq<Event>, pos: Pos, lo: nat, hi: nat)
    requires Within(log, pos, lo, hi)
    ensures Below(log, pos)
  {
    forall i | 0 <= i < |log| ensures pos <= log[i].pos { assert IsUnder(log[i].pos, pos, lo, hi); }
  }

  /** Calls below different children are made from different places. */
  lemma SideBySide(a: seq<Event>, b: seq<Event>, pos: Pos, lo: nat, mid: nat, hi: nat)
    requires lo <= mid <= hi && Distinct(a) && Distinct(b) && Within(a, pos, lo, mid) && Within(b, pos, mid, hi)
    ensures Distinct(a + b) && Within(a + b, pos, lo, hi)
  {
    var log := a + b;
    forall i, j | 0 <= i < j < |log| ensures log[i].pos != log[j].pos || Kind(log[i]) != Kind(log[j]) {
      if i < |a| <= j {
        assert IsUnder(a[i].pos, pos, lo, mid) && IsUnder(b[j - |a|].pos, pos, mid, hi);
      }
    }
    forall i | 0 <= i < |log| ensures IsUnder(log[i].pos, pos, lo, hi) {
      if i < |a| { assert IsUnder(a[i].pos, pos, lo, mid); } else { assert IsUnder(b[i - |a|].pos, pos, mid, hi); }
    }
  }

  ghost predicate LeavesArePlaced(env: Env)
  {
    forall e, src, st, pos :: IsLeaf(e) ==>
      var log := env.leaf(e, src, st, pos).log; Distinct(log) && Below(log, pos)
  }

  lemma {:induction false} ExecPlaced(e: Effect, src: string, st: State, pos: Pos, env: Env)
    requires LeavesArePlaced(env)
    ensures var log := Exec(e, src, st, pos, env).log; Distinct(log) && Below(log, pos)
    decreases e
  {
    if IsLeaf(e) { return; }
    match e
    case Sequential(body) =>
      WalkPlaced(body, src, st, pos, 0, env);
      WithinIsBelow(Walk(body, src, st, pos, 0, env).log, pos, 0, |body|);
    case When(_, body, source) =>
      WalkPlaced(body, source, st, pos, 0, env);
      WithinIsBelow(Walk(body, source, st, pos, 0, env).log, pos, 0, |body|);
    case Parallel(branches) =>
      BranchesPlaced(branches, src, st, pos, 0, env);
      BlockPlaced(Branches(branches, src, st, pos, 0, env), pos, env.w, st);
    case Pdp(call, onAllow, onDeny) =>
      WalkPlaced(onAllow, src, st, pos + [0], 0, env);
      WalkPlaced(onDeny, src, st, pos + [1], 0, env);
      var ev := PdpCalled(pos, call, env.w.pdp(pos, call, st.bag));
      ReactionPlaced(ev, Walk(onAllow, src, st, pos + [0], 0, env).log, pos, 0, |onAllow|);
      ReactionPlaced(ev, Walk(onDeny, src, st, pos + [1], 0, env).log, pos, 1, |onDeny|);
  }

  lemma ReactionPlaced(ev: Event, log: seq<Event>, pos: Pos, child: nat, n: nat)
    requires ev.pos == pos && Distinct(log) && Within(log, pos + [child], 0, n)
    ensures Distinct([ev] + log) && Below([ev] + log, pos)
  {
    WithinIsBelow(log, pos + [child], 0, n);
    BelowIsWithin(log, pos, child);
    WithinIsBelow(log, pos, child, child + 1);
    var all := [ev] + log;
    forall i, j | 0 <= i < j < |all| ensures all[i].pos != all[j].pos || Kind(all[i]) != Kind(all[j]) {
      if i == 0 { assert IsUnder(log[j - 1].pos, pos, child, child + 1); }
    }
  }

  lemma {:induction false} WalkPlaced(es: seq<Effect>, src: string, st: State, pos: Pos, k: nat, env: Env)
    requires LeavesArePlaced(env)
    ensures var log := Walk(es, src, st, pos, k, env).log; Distinct(log) && Within(log, pos, k, k + |es|)
    decreases es
  {
    if es != [] {
      ExecPlaced(es[0], src, st, pos + [k], env);
      var r := Exec(es[0], src, st, pos + [k], env);
      BelowIsWithin(r.log, pos, k);
      if r.outcome.Continue? {
        WalkPlaced(es[1..], src, r.st, pos, k + 1, env);
        SideBySide(r.log, Walk(es[1..], src, r.st, pos, k + 1, env).log, pos, k, k + 1, k + |es|);
      } else {
        SideBySide(r.log, [], pos, k, k + 1, k + |es|);
        assert r.log + [] == r.log;
      }
    }
  }

  lemma {:induction false} BranchesPlaced(es: seq<Effect>, src: string, st: State, pos: Pos, k: nat, env: Env)
    requires LeavesArePlaced(env)
    ensures forall i :: 0 <= i < |es| ==>
      var log := Branches(es, src, st, pos, k, env)[i].log; Distinct(log) && Within(log, pos, k + i, k + i + 1)
    decreases es
  {
    if es != [] {
      ExecPlaced(es[0], src, st, pos + [k], env);
      BelowIsWithin(Exec(es[0], src, st, pos + [k], env).log, pos, k);
      BranchesPlaced(es[1..], src, st, pos, k + 1, env);
      var rest := Branches(es[1..], src, st, pos, k + 1, env);
      forall i | 0 < i < |es|
        ensures var log := Branches(es, src, st, pos, k, env)[i].log;
          Distinct(log) && Within(log, pos, k + i, k + i + 1)
      {
        assert Branches(es, src, st, pos, k, env)[i] == rest[i - 1];
        assert Within(rest[i - 1].log, pos, k + 1 + (i - 1), k + 1 + (i - 1) + 1);
      }
    }
  }

  lemma {:induction false} SlotsPlaced(rs: seq<Run>, slots: seq<Slot>, pos: Pos, k: nat, st: State)
    requires |slots| == |rs| && forall i :: 0 <= i < |rs| ==> Partial(slots[i], rs[i])
    requires forall i :: 0 <= i < |rs| ==> Distinct(rs[i].log) && Within(rs[i].log, pos, k + i, k + i + 1)
    ensures var log := Merge(slots, st).log; Distinct(log) && Within(log, pos, k, k + |rs|)
    decreases |rs|
  {
    if rs != [] {
      var first := if slots[0].Cancelled? then slots[0].partial else slots[0].run.log;
      assert Partial(slots[0], rs[0]);
      if slots[0].Cancelled? { PartPlaced(first, rs[0].log, pos, k); }
      forall i | 0 <= i < |rs[1..]|
        ensures Partial(slots[1..][i], rs[1..][i]) && Distinct(rs[1..][i].log) &&
          Within(rs[1..][i].log, pos, k + 1 + i, k + 1 + i + 1)
      {
        assert rs[1..][i] == rs[i + 1] && slots[1..][i] == slots[i + 1];
        assert Within(rs[i + 1].log, pos, k + (i + 1), k + (i + 1) + 1);
      }
      SlotsPlaced(rs[1..], slots[1..], pos, k + 1, st);
      SideBySide(first, Merge(slots[1..], st).log, pos, k, k + 1, k + |rs|);
    }
  }

  lemma PartPlaced(part: seq<Event>, log: seq<Event>, pos: Pos, k: nat)
    requires IsPart(part, log) && Distinct(log) && Within(log, pos, k, k + 1)
    ensures Distinct(part) && Within(part, pos, k, k + 1)
  {
    PartDistinct(part, log);
    PartIsThere(part, log);
    forall i | 0 <= i < |part| ensures IsUnder(part[i].pos, pos, k, k + 1) {
      assert part[i] in log;
      var j :| 0 <= j < |log| && log[j] == part[i];
    }
  }

  lemma {:induction false} PartDistinct(part: seq<Event>, log: seq<Event>)
    requires IsPart(part, log) && Distinct(log)
    ensures Distinct(part)
    decreases |log|
  {
    if part != [] {
      assert Distinct(log[1..]);
      if part[0] == log[0] && IsPart(part[1..], log[1..]) {
        PartDistinct(part[1..], log[1..]);
        PartIsThere(part[1..], log[1..]);
        forall j | 0 < j < |part| ensures part[0].pos != part[j].pos || Kind(part[0]) != Kind(part[j]) {
          assert part[1..][j - 1] == part[j] && part[j] in log[1..];
          var i :| 0 <= i < |log[1..]| && log[1..][i] == part[j];
          assert log[i + 1] == part[j];
        }
        assert forall j :: 0 < j < |part| ==> part[j] == part[1..][j - 1];
      } else {
        PartDistinct(part, log[1..]);
      }
    }
  }

  lemma BlockPlaced(rs: seq<Run>, pos: Pos, w: World, st: State)
    requires forall i :: 0 <= i < |rs| ==> Distinct(rs[i].log) && Within(rs[i].log, pos, i, i + 1)
    ensures var log := Merge(Slots(rs, pos, w), st).log; Distinct(log) && Below(log, pos)
  {
    SlotsArePartial(rs, pos, w);
    SlotsPlaced(rs, Slots(rs, pos, w), pos, 0, st);
    WithinIsBelow(Merge(Slots(rs, pos, w), st).log, pos, 0, |rs|);
  }

  // ----- the engine -----

  lemma StagePlaced(stage: Stage, v: Json, c: Site, idx: nat)
    ensures var log := RunStage(stage, v, c, idx).log; Distinct(log) && Within(log, c.pos, idx, idx + 1)
  {
    var log := RunStage(stage, v, c, idx).log;
    if stage.StagePlugin? {
      assert |log| == 1 && log[0].pos == c.pos + [idx];
      BelowIsWithin(log, c.pos, idx);
    }
  }

  lemma {:induction false} FlowPlaced(stages: seq<Stage>, base: nat, v: Json, changed: bool, c: Site)
    ensures var log := Flow(stages, base, v, changed, At(c)).log;
      Distinct(log) && Within(log, c.pos, base, base + |stages|)
    decreases |stages|
  {
    if stages != [] {
      StagePlaced(stages[0], v, c, base);
      var s := RunStage(stages[0], v, c, base);
      if s.Go? {
        FlowPlaced(stages[1..], base + 1, s.value, changed || s.changed, c);
        SideBySide(s.log, Flow(stages[1..], base + 1, s.value, changed || s.changed, At(c)).log, c.pos, base, base + 1,
                   base + |stages|);
      } else {
        SideBySide(s.log, [], c.pos, base, base + 1, base + |stages|);
        assert s.log + [] == s.log;
      }
    }
  }

  lemma EditPlaced(root: Json, field: string, stages: seq<Stage>, site: Site)
    ensures var log := EditField(root, field, stages, site).log; Distinct(log) && Below(log, site.pos)
  {
    var current := Get(root, Segments(field));
    if current.Some? {
      FlowPlaced(stages, 0, current.value, false, site);
      WithinIsBelow(Evaluate(stages, current.value, site).log, site.pos, 0, |stages|);
    }
  }

  lemma FieldOpPlaced(path: string, stages: seq<Stage>, src: string, st: State, pos: Pos, phase: Phase, w: World)
    ensures var log := FieldOpRun(path, stages, src, st, pos, phase, w).log; Distinct(log) && Below(log, pos)
  {
    var args, result := StripPrefix(path, ARGS_PREFIX), StripPrefix(path, RESULT_PREFIX);
    if args.Some? {
      EditPlaced(st.payload.args, args.value, stages, Site(st.bag, args.value, phase, pos, w));
    } else if result.Some? && st.payload.result.Some? {
      EditPlaced(st.payload.result.value, result.value, stages, Site(st.bag, result.value, phase, pos, w));
    }
  }

  /** The operations of one elicitation step come in order, each at most once. */
  predicate Ascending(log: seq<Event>, pos: Pos, from: nat)
  {
    && (forall i :: 0 <= i < |log| ==> log[i].pos == pos && from <= Kind(log[i]))
    && forall i, j :: 0 <= i < j < |log| ==> Kind(log[i]) < Kind(log[j])
  }

  lemma CheckPlaced(step: ElicitStep, id: string, st: State, pos: Pos, phase: Phase, w: World)
    ensures Ascending(CheckRun(step, id, st, pos, phase, w).log, pos, 4)
  {
    assert Ascending(ValidateRun(step, id, st, pos, phase, w).log, pos, 5);
  }

  lemma AskPlaced(step: ElicitStep, from: string, st: State, pos: Pos, phase: Phase, w: World)
    ensures Ascending(AskRun(step, from, st, pos, phase, w).log, pos, 3)
  {
    var answer := w.dispatch(pos, step, from);
    if answer.Dispatched? {
      var bag := OpenedBag(st.bag, step, answer.id, answer.approver, answer.intentId, answer.expiresAt);
      var checking := CheckRun(step, answer.id, st.(bag := bag), pos, phase, w);
      CheckPlaced(step, answer.id, st.(bag := bag), pos, phase, w);
      LaterPlaced(ElicitDispatched(pos, step, answer), checking.log, pos);
    }
  }

  lemma LaterPlaced(ev: Event, log: seq<Event>, pos: Pos)
    requires ev.ElicitDispatched? && ev.pos == pos && Ascending(log, pos, 4)
    ensures Ascending([ev] + log, pos, 3)
  {
    assert forall i :: 0 < i < |[ev] + log| ==> ([ev] + log)[i] == log[i - 1];
  }

  lemma ElicitPlaced(step: ElicitStep, st: State, pos: Pos, phase: Phase, w: World)
    ensures Ascending(ElicitRun(step, st, pos, phase, w).log, pos, 3)
  {
    var from, id := ResolveFrom(step, st.bag), GetString(st.bag, ELICIT_ID);
    if from.None? { return; }
    if id.Some? { CheckPlaced(step, id.value, st, pos, phase, w); return; }
    AskPlaced(step, from.value, st, pos, phase, w);
  }

  lemma LeafPlaced(e: Effect, src: string, st: State, pos: Pos, phase: Phase, w: World)
    ensures var log := LeafRun(e, src, st, pos, phase, w).log; Distinct(log) && Below(log, pos)
  {
    if e.Elicit? {
      ElicitPlaced(e.step, st, pos, phase, w);
    } else if e.FieldOp? {
      FieldOpPlaced(e.path, e.stages, src, st, pos, phase, w);
    }
  }

  lemma EngineIsPlaced(phase: Phase, w: World)
    ensures LeavesArePlaced(In(phase, w))
  {
    forall e, src, st, pos | IsLeaf(e)
      ensures var log := In(phase, w).leaf(e, src, st, pos).log; Distinct(log) && Below(log, pos)
    {
      LeafPlaced(e, src, st, pos, phase, w);
    }
  }

  /** In any phase, under any schedule, no invoker operation is called twice from one place. */
  lemma EachCallHasItsPlace(es: seq<Effect>, st: State, pos: Pos, phase: Phase, w: World)
    ensures var log := Steps(es, st, pos, In(phase, w)).log; Distinct(log) && Below(log, pos)
  {
    EngineIsPlaced(phase, w);
    WalkPlaced(es, "", st, pos, 0, In(phase, w));
    WithinIsBelow(Steps(es, st, pos, In(phase, w)).log, pos, 0, |es|);
  }
}
