/** Over a whole route too, every call is made from its own place: the field rules and the effects of
    both phases sit side by side (`evaluate_route` in `route.rs`). */
module RoutePlaces {
  import opened Text
  import opened Json
  import opened Ir
  import opened World
  import opened Runs
  import opened Pipelines
  import opened Trees
  import opened Engine
  import opened Positions
  import opened FieldRules
  import opened Routes

  lemma {:induction false} RulesPlaced(rules: seq<FieldRule>, root: Json, k: nat, bag: Bag, phase: Phase, pos: Pos,
                                       w: World)
    ensures var log := RunRules(rules, root, k, Pipelining(bag, phase, pos, w)).log;
      Distinct(log) && Within(log, pos, k, k + |rules|)
    decreases |rules|
  {
    if rules != [] {
      var rule, pipe := rules[0], Pipelining(bag, phase, pos, w);
      EditPlaced(root, rule.field, rule.stages, Site(bag, rule.field, phase, pos + [k], w));
      PipeliningEdits(rule, root, k, bag, phase, pos, w);
      var e := Edited(rule, root, k, pipe);
      BelowIsWithin(e.log, pos, k);
      RulesPlaced(rules[1..], e.root, k + 1, bag, phase, pos, w);
      SideBySide(e.log, RunRules(rules[1..], e.root, k + 1, pipe).log, pos, k, k + 1, k + |rules|);
      SideBySide(e.log, [], pos, k, k + 1, k + |rules|);
      assert e.log + [] == e.log;
    }
  }

  const ROUTE: Pos := []

  lemma UnderChild(log: seq<Event>, child: Pos, i: nat)
    requires child == [i] && Below(log, child)
    ensures Within(log, ROUTE, i, i + 1)
  {
    assert ROUTE + [i] == child;
    BelowIsWithin(log, ROUTE, i);
  }

  /** A phase whose field rules are at `[i]` and whose effects are at `[i + 1]`. */
  lemma PhasePlaced(fields: FieldsRun, st: State, effects: seq<Effect>, pos: Pos, phase: Phase, w: World, i: nat)
    requires pos == [i + 1] && Distinct(fields.log) && Within(fields.log, ROUTE, i, i + 1)
    ensures var log := PhaseOf(fields, st, effects, pos, phase, w).log;
      Distinct(log) && Within(log, ROUTE, i, i + 2)
  {
    EachCallHasItsPlace(effects, st, pos, phase, w);
    var log := Steps(effects, st, pos, In(phase, w)).log;
    UnderChild(log, pos, i + 1);
    SideBySide(fields.log, log, ROUTE, i, i + 1, i + 2);
    SideBySide(fields.log, [], ROUTE, i, i + 1, i + 2);
    assert fields.log + [] == fields.log;
  }

  lemma PrePlaced(route: CompiledRoute, st: State, w: World)
    ensures var log := PreRun(route, st, w).log; Distinct(log) && Within(log, ROUTE, 0, 2)
  {
    var fields := ArgsRun(route, st, w);
    RulesPlaced(route.args, st.payload.args, 0, st.bag, Pre, ARGS_AT, w);
    WithinIsBelow(fields.log, ARGS_AT, 0, |route.args|);
    UnderChild(fields.log, ARGS_AT, 0);
    PhasePlaced(fields, st.(payload := st.payload.(args := fields.root)), route.policy, POLICY_AT, Pre, w, 0);
  }

  lemma PostPlaced(route: CompiledRoute, st: State, w: World)
    ensures var log := PostRun(route, st, w).log; Distinct(log) && Within(log, ROUTE, 2, 4)
  {
    if st.payload.result.None? {
      PhasePlaced(NO_FIELDS, st, route.postPolicy, POST_POLICY_AT, Post, w, 2);
    } else {
      var fields := ResultRun(route, st, w);
      RulesPlaced(route.result, st.payload.result.value, 0, st.bag, Post, RESULT_AT, w);
      WithinIsBelow(fields.log, RESULT_AT, 0, |route.result|);
      UnderChild(fields.log, RESULT_AT, 2);
      PhasePlaced(fields, st.(payload := st.payload.(result := Some(fields.root))), route.postPolicy, POST_POLICY_AT,
                  Post, w, 2);
    }
  }

  /** In a whole route, under any schedule, no invoker operation is called twice from one place. */
  lemma RouteCallsHaveTheirPlace(route: CompiledRoute, st: State, w: World)
    ensures Distinct(RouteRun(route, st, w).log)
  {
    var pre := PreRun(route, st, w);
    PrePlaced(route, st, w);
    PostPlaced(route, pre.st, w);
    SideBySide(pre.log, PostRun(route, pre.st, w).log, ROUTE, 0, 2, 4);
  }
}
