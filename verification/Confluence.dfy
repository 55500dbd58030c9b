/** Field rules on paths apart from each other can run in any order. */
module Confluence {
  import opened Text
  import opened Json
  import opened Ir
  import opened World
  import opened Pipelines
  import opened Leaves
  import opened FieldRules
  import opened Orders

  // ----- edits of apart paths commute -----

  /** Write a value at `p`, or with `None` delete what is there. */
  function Write(j: Json, p: Path, o: Option<Json>): Option<Json>
    requires p != []
  {
    if o.Some? then Set(j, p, o.value) else Remove(j, p)
  }

  function At(fields: map<string, Json>, key: string): Option<Json>
  {
    if key in fields then Some(fields[key]) else None
  }

  function Put(fields: map<string, Json>, key: string, o: Option<Json>): map<string, Json>
  {
    if o.Some? then fields[key := o.value] else fields - {key}
  }

  /** What a write makes of the first child on its path; the outer `None` is failure. */
  function NewChild(child: Option<Json>, p: Path, o: Option<Json>): Option<Option<Json>>
    requires p != []
  {
    if |p| == 1 then if o.None? && child.None? then None else Some(o)
    else if child.None? then None
    else
      var below := Write(child.value, p[1..], o);
      if below.Some? then Some(below) else None
  }

  lemma WriteIsPut(j: Json, p: Path, o: Option<Json>)
    requires p != []
    ensures Write(j, p, o) ==
      if !j.Obj? then None
      else
        var child := NewChild(At(j.fields, p[0]), p, o);
        if child.Some? then Some(Obj(Put(j.fields, p[0], child.value))) else None
  {
  }

  lemma PutsCommute(fields: map<string, Json>, k1: string, o1: Option<Json>, k2: string, o2: Option<Json>)
    requires k1 != k2
    ensures Put(Put(fields, k1, o1), k2, o2) == Put(Put(fields, k2, o2), k1, o1)
    ensures At(Put(fields, k1, o1), k2) == At(fields, k2)
  {
  }

  lemma PutAgain(fields: map<string, Json>, key: string, o1: Option<Json>, o2: Option<Json>)
    ensures Put(Put(fields, key, o1), key, o2) == Put(fields, key, o2)
    ensures At(Put(fields, key, o1), key) == o1
  {
  }

  /** Writes at paths apart can be exchanged. */
  lemma {:induction false} WritesCommute(j: Json, p: Path, q: Path, a: Option<Json>, b: Option<Json>)
    requires p != [] && q != [] && Apart(p, q)
    requires Write(j, p, a).Some? && Write(j, q, b).Some?
    ensures Write(Write(j, p, a).value, q, b).Some?
    ensures Write(Write(j, p, a).value, q, b) == Write(Write(j, q, b).value, p, a)
    decreases |p|
  {
    WriteIsPut(j, p, a);
    WriteIsPut(j, q, b);
    WriteIsPut(Write(j, p, a).value, q, b);
    WriteIsPut(Write(j, q, b).value, p, a);
    if p[0] == q[0] {
      assert p == [p[0]] + p[1..] && q == [q[0]] + q[1..];
      assert |p| > 1 && |q| > 1 && Apart(p[1..], q[1..]);
      var c := j.fields[p[0]];
      WritesCommute(c, p[1..], q[1..], a, b);
      var ca, cb := Write(c, p[1..], a), Write(c, q[1..], b);
      PutAgain(j.fields, p[0], ca, Write(ca.value, q[1..], b));
      PutAgain(j.fields, p[0], cb, Write(cb.value, p[1..], a));
    } else {
      var ca, cb := NewChild(At(j.fields, p[0]), p, a).value, NewChild(At(j.fields, q[0]), q, b).value;
      PutsCommute(j.fields, p[0], ca, q[0], cb);
      PutsCommute(j.fields, q[0], cb, p[0], ca);
    }
  }

  // ----- edits by rules -----

  /** The pipelines do not look at where in the list their rule stands. */
  ghost predicate Steady(pipe: Piping) { forall rule, v, k :: pipe(rule, v, k) == pipe(rule, v, 0) }

  predicate RulesApart(r1: FieldRule, r2: FieldRule) { Apart(Segments(r1.field), Segments(r2.field)) }

  /** No rule twice, and no declared path inside another. */
  ghost predicate Disjoint(rules: multiset<FieldRule>)
  {
    (forall r :: r in rules ==> rules[r] == 1) &&
    (forall r1, r2 :: r1 in rules && r2 in rules && r1 != r2 ==> RulesApart(r1, r2))
  }

  function Edit(rule: FieldRule, root: Json, pipe: Piping): FieldEdit { Edited(rule, root, 0, pipe) }

  /** Everything an edit reports, apart from the tree. */
  predicate SameReport(a: FieldEdit, b: FieldEdit)
  {
    a.rejected == b.rejected && a.modified == b.modified && a.taints == b.taints
  }

  lemma ReportIsLocal(rule: FieldRule, r1: Json, r2: Json, pipe: Piping)
    requires Get(r1, Segments(rule.field)) == Get(r2, Segments(rule.field))
    ensures SameReport(Edit(rule, r1, pipe), Edit(rule, r2, pipe))
  {
    EditIsSeen(rule, r1, 0, pipe);
    EditIsSeen(rule, r2, 0, pipe);
  }

  lemma ApartIsUnmoved(other: FieldRule, rule: FieldRule, root: Json, pipe: Piping)
    requires RulesApart(other, rule)
    ensures Get(Edit(other, root, pipe).root, Segments(rule.field)) == Get(root, Segments(rule.field))
    ensures SameReport(Edit(rule, Edit(other, root, pipe).root, pipe), Edit(rule, root, pipe))
  {
    EditKeepsApart(other, root, 0, pipe, Segments(rule.field));
    ReportIsLocal(rule, Edit(other, root, pipe).root, root, pipe);
  }

  lemma EditsCommute(r1: FieldRule, r2: FieldRule, root: Json, pipe: Piping)
    requires RulesApart(r1, r2)
    ensures Edit(r2, Edit(r1, root, pipe).root, pipe).root == Edit(r1, Edit(r2, root, pipe).root, pipe).root
  {
    ApartIsUnmoved(r1, r2, root, pipe);
    ApartIsUnmoved(r2, r1, root, pipe);
    EditIsWrite(r1, root, pipe);
    EditIsWrite(r2, root, pipe);
    EditIsWrite(r2, Edit(r1, root, pipe).root, pipe);
    EditIsWrite(r1, Edit(r2, root, pipe).root, pipe);
    var p, q := Segments(r1.field), Segments(r2.field);
    var w1, w2 := Writes(r1, Get(root, p), pipe), Writes(r2, Get(root, q), pipe);
    if w1.Some? && w2.Some? { WritesCommute(root, p, q, w1.value, w2.value); }
  }

  /** The write a rule performs on what it finds, if any. */
  function Writes(rule: FieldRule, found: Option<Json>, pipe: Piping): Option<Option<Json>>
  {
    if found.None? then None
    else match pipe(rule, found.value, 0).outcome
      case Replace(v) => Some(Some(v))
      case OmitField => Some(None)
      case _ => None
  }

  lemma EditIsWrite(rule: FieldRule, root: Json, pipe: Piping)
    ensures var p := Segments(rule.field);
      var w := Writes(rule, Get(root, p), pipe);
      if w.None? then Edit(rule, root, pipe).root == root
      else Write(root, p, w.value) == Some(Edit(rule, root, pipe).root)
  {
    var p := Segments(rule.field);
    if Get(root, p).Some? {
      var w := Writes(rule, Get(root, p), pipe);
      FoundCanBeEdited(root, p, if w.Some? && w.value.Some? then w.value.value else Null);
    }
  }

  // ----- whole lists -----

  function Final(rules: seq<FieldRule>, root: Json, pipe: Piping): Json
  {
    if rules == [] then root else Final(rules[1..], Edit(rules[0], root, pipe).root, pipe)
  }

  function TaintsOf(rules: seq<FieldRule>, root: Json, pipe: Piping): multiset<TaintEvent>
  {
    if rules == [] then multiset{}
    else multiset(Edit(rules[0], root, pipe).taints) + TaintsOf(rules[1..], root, pipe)
  }

  lemma HeadIsApart(rules: seq<FieldRule>, i: nat)
    requires Disjoint(multiset(rules)) && 0 < i < |rules|
    ensures RulesApart(rules[0], rules[i]) && RulesApart(rules[i], rules[0])
  {
    assert rules == [rules[0]] + rules[1..];
    assert rules[i] == rules[1..][i - 1] && rules[i] in multiset(rules[1..]);
    assert multiset(rules)[rules[i]] == multiset([rules[0]])[rules[i]] + multiset(rules[1..])[rules[i]];
    assert rules[0] in multiset(rules);
  }

  lemma TailIsDisjoint(rules: seq<FieldRule>)
    requires Disjoint(multiset(rules)) && rules != []
    ensures Disjoint(multiset(rules[1..]))
  {
    assert rules == [] + ([rules[0]] + rules[1..]);
    assert [] + rules[1..] == rules[1..];
    TakenOut([], rules[0], rules[1..]);
    forall r | r in multiset(rules[1..]) ensures multiset(rules[1..])[r] == 1 { assert r in multiset(rules); }
  }

  /** After the first rule has run, the others still see what they would have seen before. */
  lemma {:induction false} TaintsUnmoved(rules: seq<FieldRule>, other: FieldRule, root: Json, pipe: Piping)
    requires forall i :: 0 <= i < |rules| ==> RulesApart(other, rules[i])
    ensures TaintsOf(rules, Edit(other, root, pipe).root, pipe) == TaintsOf(rules, root, pipe)
  {
    if rules != [] {
      ApartIsUnmoved(other, rules[0], root, pipe);
      TaintsUnmoved(rules[1..], other, root, pipe);
    }
  }

  ghost predicate SomeRejects(rules: seq<FieldRule>, root: Json, pipe: Piping)
  {
    exists i :: 0 <= i < |rules| && Edit(rules[i], root, pipe).rejected.Some?
  }

  ghost predicate SomeModifies(rules: seq<FieldRule>, root: Json, pipe: Piping)
  {
    exists i :: 0 <= i < |rules| && Edit(rules[i], root, pipe).modified
  }

  lemma ReportsUnmoved(rules: seq<FieldRule>, other: FieldRule, root: Json, pipe: Piping)
    requires forall i :: 0 <= i < |rules| ==> RulesApart(other, rules[i])
    ensures SomeRejects(rules, Edit(other, root, pipe).root, pipe) == SomeRejects(rules, root, pipe)
    ensures SomeModifies(rules, Edit(other, root, pipe).root, pipe) == SomeModifies(rules, root, pipe)
  {
    forall i | 0 <= i < |rules|
      ensures SameReport(Edit(rules[i], Edit(other, root, pipe).root, pipe), Edit(rules[i], root, pipe))
    {
      ApartIsUnmoved(other, rules[i], root, pipe);
    }
  }

  lemma SomeFirst(rules: seq<FieldRule>, root: Json, pipe: Piping)
    requires rules != []
    ensures SomeRejects(rules, root, pipe) <==>
      Edit(rules[0], root, pipe).rejected.Some? || SomeRejects(rules[1..], root, pipe)
    ensures SomeModifies(rules, root, pipe) <==>
      Edit(rules[0], root, pipe).modified || SomeModifies(rules[1..], root, pipe)
  {
    assert forall i :: 0 < i < |rules| ==> rules[i] == rules[1..][i - 1];
  }

  /** On apart paths each rule acts as if it ran alone on the original tree. */
  lemma {:induction false} EachActsAlone(rules: seq<FieldRule>, root: Json, k: nat, pipe: Piping)
    requires Steady(pipe) && Disjoint(multiset(rules))
    ensures var r := RunRules(rules, root, k, pipe);
      && (r.denied.Some? <==> SomeRejects(rules, root, pipe))
      && (r.denied.None? ==>
            r.root == Final(rules, root, pipe)
            && (r.modified <==> SomeModifies(rules, root, pipe))
            && multiset(r.taints) == TaintsOf(rules, root, pipe))
    decreases |rules|
  {
    if rules != [] {
      var e := Edit(rules[0], root, pipe);
      forall i | 0 < i < |rules| ensures RulesApart(rules[0], rules[i]) { HeadIsApart(rules, i); }
      assert forall i :: 0 <= i < |rules| - 1 ==> rules[1..][i] == rules[i + 1];
      TailIsDisjoint(rules);
      SomeFirst(rules, root, pipe);
      ReportsUnmoved(rules[1..], rules[0], root, pipe);
      TaintsUnmoved(rules[1..], rules[0], root, pipe);
      SteadyEdit(rules[0], root, k, pipe);
      EachActsAlone(rules[1..], e.root, k + 1, pipe);
    }
  }

  lemma SteadyEdit(rule: FieldRule, root: Json, k: nat, pipe: Piping)
    requires Steady(pipe)
    ensures Edited(rule, root, k, pipe) == Edit(rule, root, pipe)
  {
  }

  // ----- reordering -----

  /** Any rule can be moved to the front. */
  lemma {:induction false} Bubble(front: seq<FieldRule>, x: FieldRule, back: seq<FieldRule>, root: Json, pipe: Piping)
    requires forall i :: 0 <= i < |front| ==> RulesApart(x, front[i])
    ensures Final(front + ([x] + back), root, pipe) == Final([x] + (front + back), root, pipe)
    decreases |front|
  {
    if front == [] {
      assert front + ([x] + back) == [x] + (front + back);
    } else {
      var y, rest := front[0], front[1..];
      assert front + ([x] + back) == [y] + (rest + ([x] + back));
      assert front + back == [y] + (rest + back);
      FinalOne(y, rest + ([x] + back), root, pipe);
      Bubble(rest, x, back, Edit(y, root, pipe).root, pipe);
      FinalOne(x, rest + back, Edit(y, root, pipe).root, pipe);
      EditsCommute(x, y, root, pipe);
      FinalTwo(x, y, rest + back, root, pipe);
    }
  }

  lemma FinalOne(x: FieldRule, others: seq<FieldRule>, root: Json, pipe: Piping)
    ensures Final([x] + others, root, pipe) == Final(others, Edit(x, root, pipe).root, pipe)
  {
    assert ([x] + others)[1..] == others;
  }

  lemma FinalTwo(x: FieldRule, y: FieldRule, others: seq<FieldRule>, root: Json, pipe: Piping)
    ensures Final([x] + ([y] + others), root, pipe) ==
      Final(others, Edit(y, Edit(x, root, pipe).root, pipe).root, pipe)
  {
    FinalOne(x, [y] + others, root, pipe);
    FinalOne(y, others, Edit(x, root, pipe).root, pipe);
  }

  lemma FrontIsApart(front: seq<FieldRule>, x: FieldRule, back: seq<FieldRule>, i: nat)
    requires Disjoint(multiset(front + ([x] + back))) && i < |front|
    ensures RulesApart(x, front[i])
  {
    var rules := front + ([x] + back);
    TakenOut(front, x, back);
    assert (front + back)[i] == front[i] && front[i] in multiset(front + back);
    assert multiset(rules)[x] == multiset(front + back)[x] + 1;
    assert x in multiset(rules) && front[i] in multiset(rules);
  }

  lemma {:induction false} FinalPermuted(xs: seq<FieldRule>, ys: seq<FieldRule>, root: Json, pipe: Piping)
    requires multiset(xs) == multiset(ys) && Disjoint(multiset(xs))
    ensures Final(xs, root, pipe) == Final(ys, root, pipe)
    decreases |xs|
  {
    if xs == [] {
      NoneLeft(xs, ys);
    } else {
      var front, back := Find(xs, ys);
      forall i: nat | i < |front| ensures RulesApart(xs[0], front[i]) { FrontIsApart(front, xs[0], back, i); }
      Bubble(front, xs[0], back, root, pipe);
      TailIsDisjoint(xs);
      FinalPermuted(xs[1..], front + back, Edit(xs[0], root, pipe).root, pipe);
      FinalOne(xs[0], front + back, root, pipe);
    }
  }

  lemma {:induction false} TaintsMoved(front: seq<FieldRule>, x: FieldRule, back: seq<FieldRule>, root: Json,
                                       pipe: Piping)
    ensures TaintsOf(front + ([x] + back), root, pipe) ==
      multiset(Edit(x, root, pipe).taints) + TaintsOf(front + back, root, pipe)
  {
    if front == [] {
      assert front + ([x] + back) == [x] + back && front + back == back;
      assert ([x] + back)[1..] == back;
    } else {
      assert (front + ([x] + back))[1..] == front[1..] + ([x] + back) && (front + back)[1..] == front[1..] + back;
      TaintsMoved(front[1..], x, back, root, pipe);
    }
  }

  lemma {:induction false} TaintsPermuted(xs: seq<FieldRule>, ys: seq<FieldRule>, root: Json, pipe: Piping)
    requires multiset(xs) == multiset(ys)
    ensures TaintsOf(xs, root, pipe) == TaintsOf(ys, root, pipe)
    decreases |xs|
  {
    if xs == [] {
      NoneLeft(xs, ys);
    } else {
      var front, back := Find(xs, ys);
      TaintsMoved(front, xs[0], back, root, pipe);
      TaintsPermuted(xs[1..], front + back, root, pipe);
    }
  }

  lemma SomePermuted(xs: seq<FieldRule>, ys: seq<FieldRule>, root: Json, pipe: Piping)
    requires multiset(xs) == multiset(ys)
    ensures SomeRejects(xs, root, pipe) ==> SomeRejects(ys, root, pipe)
    ensures SomeModifies(xs, root, pipe) ==> SomeModifies(ys, root, pipe)
  {
    forall i | 0 <= i < |xs| ensures exists j :: 0 <= j < |ys| && ys[j] == xs[i] {
      assert xs[i] in multiset(ys);
    }
  }

  /** Two orders of the same rules agree: the same verdict, and without a denial the same tree, the
      same flag and the same taints. */
  predicate SameEffect(a: FieldsRun, b: FieldsRun)
  {
    && a.denied.Some? == b.denied.Some?
    && (a.denied.None? ==> a.root == b.root && a.modified == b.modified && multiset(a.taints) == multiset(b.taints))
  }

  lemma OrderIsIrrelevant(xs: seq<FieldRule>, ys: seq<FieldRule>, root: Json, k: nat, pipe: Piping)
    requires multiset(xs) == multiset(ys) && Disjoint(multiset(xs)) && Steady(pipe)
    ensures SameEffect(RunRules(xs, root, k, pipe), RunRules(ys, root, k, pipe))
  {
    EachActsAlone(xs, root, k, pipe);
    EachActsAlone(ys, root, k, pipe);
    SomePermuted(xs, ys, root, pipe);
    SomePermuted(ys, xs, root, pipe);
    FinalPermuted(xs, ys, root, pipe);
    TaintsPermuted(xs, ys, root, pipe);
  }

  // ----- the engine's pipelines -----

  /** Plugin-free pipelines, read without the position. */
  function Unplaced(bag: Bag, phase: Phase, w: World): Piping
  {
    (rule: FieldRule, v: Json, k: nat) => Evaluate(rule.stages, v, Site(bag, rule.field, phase, [], w))
  }

  lemma {:induction false} PositionIsIgnored(p: seq<Stage>, base: nat, v: Json, changed: bool, c: Site, pos: Pos)
    requires PluginFree(p)
    ensures Flow(p, base, v, changed, Pipelines.At(c)) == Flow(p, base, v, changed, Pipelines.At(c.(pos := pos)))
    decreases |p|
  {
    if p != [] {
      StageIgnoresPosition(p[0], v, c, pos, base);
      var s := RunStage(p[0], v, c, base);
      if s.Go? { PositionIsIgnored(p[1..], base + 1, s.value, changed || s.changed, c, pos); }
    }
  }

  lemma StageIgnoresPosition(stage: Stage, v: Json, c: Site, pos: Pos, idx: nat)
    requires !stage.StagePlugin?
    ensures RunStage(stage, v, c, idx) == RunStage(stage, v, c.(pos := pos), idx)
  {
  }

  ghost predicate AllPluginFree(rules: seq<FieldRule>)
  {
    forall i :: 0 <= i < |rules| ==> PluginFree(rules[i].stages)
  }

  lemma {:induction false} RulesIgnorePosition(rules: seq<FieldRule>, root: Json, k: nat, bag: Bag, phase: Phase,
                                               pos: Pos, w: World)
    requires AllPluginFree(rules)
    ensures RunRules(rules, root, k, Pipelining(bag, phase, pos, w)) ==
      RunRules(rules, root, k, Unplaced(bag, phase, w))
    decreases |rules|
  {
    if rules != [] {
      var rule := rules[0];
      var found := Get(root, Segments(rule.field));
      if found.Some? {
        PositionIsIgnored(rule.stages, 0, found.value, false, Site(bag, rule.field, phase, pos + [k], w), []);
      }
      SameEdit(rule, root, k, Pipelining(bag, phase, pos, w), Unplaced(bag, phase, w));
      RulesIgnorePosition(rules[1..], Edited(rule, root, k, Unplaced(bag, phase, w)).root, k + 1, bag, phase, pos, w);
    }
  }

  lemma SameEdit(rule: FieldRule, root: Json, k: nat, p1: Piping, p2: Piping)
    requires var found := Get(root, Segments(rule.field));
      found.Some? ==> p1(rule, found.value, k) == p2(rule, found.value, k)
    ensures Edited(rule, root, k, p1) == Edited(rule, root, k, p2)
  {
  }

  /** Confluence: plugin-free field rules on paths apart from each other, in any two orders. */
  lemma FieldRulesConfluent(xs: seq<FieldRule>, ys: seq<FieldRule>, root: Json, bag: Bag, phase: Phase, pos: Pos,
                            w: World)
    requires multiset(xs) == multiset(ys) && Disjoint(multiset(xs)) && AllPluginFree(xs)
    ensures SameEffect(RunRules(xs, root, 0, Pipelining(bag, phase, pos, w)),
                       RunRules(ys, root, 0, Pipelining(bag, phase, pos, w)))
  {
    assert AllPluginFree(ys) by {
      forall i | 0 <= i < |ys| ensures PluginFree(ys[i].stages) { assert ys[i] in multiset(xs); }
    }
    RulesIgnorePosition(xs, root, 0, bag, phase, pos, w);
    RulesIgnorePosition(ys, root, 0, bag, phase, pos, w);
    OrderIsIrrelevant(xs, ys, root, 0, Unplaced(bag, phase, w));
  }

  /** The paths must be apart: whenever one path leads into the other, there are rules on the two
      whose order shows in the taints. */
  lemma OverlapShows(outer: string, inner: string, tag: string, root: Json, bag: Bag, phase: Phase, pos: Pos, w: World)
    requires Segments(outer) <= Segments(inner) && Get(root, Segments(inner)).Some?
    ensures var drop := FieldRule(outer, [Omit], "");
      var mark := FieldRule(inner, [StageTaint(tag, [Session])], "");
      var pipe := Pipelining(bag, phase, pos, w);
      !SameEffect(RunRules([drop, mark], root, 0, pipe), RunRules([mark, drop], root, 0, pipe))
  {
    var drop, mark := FieldRule(outer, [Omit], ""), FieldRule(inner, [StageTaint(tag, [Session])], "");
    var pipe, p, q := Pipelining(bag, phase, pos, w), Segments(outer), Segments(inner);
    FoundAbove(root, p, q);
    DropRemoves(outer, root, 0, bag, phase, pos, w);
    assert q == p + q[|p|..];
    GetAfterRemove(root, p, q[|p|..]);
    TwoRules(drop, mark, root, pipe);
    assert Edited(mark, Edited(drop, root, 0, pipe).root, 1, pipe).taints == [];
    MarkTaints(inner, tag, root, 0, bag, phase, pos, w);
    DropRemoves(outer, root, 1, bag, phase, pos, w);
    TwoRules(mark, drop, root, pipe);
    assert TaintEvent(tag, [Session]) in multiset(RunRules([mark, drop], root, 0, pipe).taints);
  }

  lemma DropRemoves(field: string, root: Json, k: nat, bag: Bag, phase: Phase, pos: Pos, w: World)
    requires Get(root, Segments(field)).Some?
    ensures Remove(root, Segments(field)).Some?
    ensures Edited(FieldRule(field, [Omit], ""), root, k, Pipelining(bag, phase, pos, w)) ==
      FieldEdit(None, Remove(root, Segments(field)).value, true, [], [])
  {
    FoundCanBeEdited(root, Segments(field), Null);
  }

  lemma MarkTaints(field: string, tag: string, root: Json, k: nat, bag: Bag, phase: Phase, pos: Pos, w: World)
    requires Get(root, Segments(field)).Some?
    ensures Edited(FieldRule(field, [StageTaint(tag, [Session])], ""), root, k, Pipelining(bag, phase, pos, w)) ==
      FieldEdit(None, root, false, [TaintEvent(tag, [Session])], [])
  {
    var v, c := Get(root, Segments(field)).value, Site(bag, field, phase, pos + [k], w);
    assert [StageTaint(tag, [Session])][1..] == [];
    assert Flow([], 1, v, false, Pipelines.At(c)) == PipeRun(Pass, [], []);
    assert Evaluate([StageTaint(tag, [Session])], v, c) == PipeRun(Pass, [TaintEvent(tag, [Session])], []);
  }

  lemma TwoRules(r1: FieldRule, r2: FieldRule, root: Json, pipe: Piping)
    requires Edited(r1, root, 0, pipe).rejected.None?
    ensures var e1 := Edited(r1, root, 0, pipe);
      var e2 := Edited(r2, e1.root, 1, pipe);
      var r := RunRules([r1, r2], root, 0, pipe);
      r.taints == e1.taints + e2.taints && (r.denied.Some? == e2.rejected.Some?)
  {
    var e1 := Edited(r1, root, 0, pipe);
    var e2 := Edited(r2, e1.root, 1, pipe);
    assert [r1, r2][1..] == [r2] && [r2][1..] == [];
    var second := RunRules([r2], e1.root, 1, pipe);
    assert RunRules([], e2.root, 2, pipe) == FieldsRun(None, e2.root, false, [], []);
    assert second.taints == e2.taints && second.denied.Some? == e2.rejected.Some?;
    assert RunRules([r1, r2], root, 0, pipe) == FollowedBy(e1, second);
  }

  lemma {:induction false} FoundAbove(root: Json, p: Path, q: Path)
    requires p <= q && Get(root, q).Some?
    ensures Get(root, p).Some?
  {
    if p != [] { FoundAbove(root.fields[p[0]], p[1..], q[1..]); }
  }
}
