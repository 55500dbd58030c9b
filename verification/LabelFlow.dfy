/** Labels from the plugin call that added them to the session: the label part of a route's report
    (`evaluator.rs`, `route.rs`) put together with the calls on shared labels and the settling of the
    request (`cmf_invoker.rs`), for every request whatever its decision. */
module LabelFlow {
  import opened Text
  import opened Json
  import opened Ir
  import opened Attributes
  import opened World
  import opened Pipelines
  import opened Runs
  import opened Leaves
  import opened Trees
  import opened Engine
  import opened Frames
  import opened Hearing
  import opened FieldRules
  import opened Routes
  import RoutePlaces
  import Purity
  import FailClosed
  import Labels
  import Sessions

  // ----- what the configuration declares -----

  predicate StageDeclares(stage: Stage, wanted: Wanted)
  {
    match stage
    case StageTaint(tag, scopes) => wanted(TaintEvent(tag, scopes))
    case Scan(kind) => wanted(TaintEvent(ScanTag(kind), [Session]))
    case _ => false
  }

  predicate StagesDeclare(stages: seq<Stage>, wanted: Wanted)
  {
    exists k :: 0 <= k < |stages| && StageDeclares(stages[k], wanted)
  }

  predicate EffectDeclares(e: Effect, wanted: Wanted)
  {
    match e
    case Taint(tag, scopes) => wanted(TaintEvent(tag, scopes))
    case FieldOp(_, stages) => StagesDeclare(stages, wanted)
    case _ => false
  }

  function Undeclaring(wanted: Wanted): Effect -> bool { e => !EffectDeclares(e, wanted) }

  predicate RulesDeclare(rules: seq<FieldRule>, wanted: Wanted)
  {
    exists i :: 0 <= i < |rules| && StagesDeclare(rules[i].stages, wanted)
  }

  // ----- single steps -----

  lemma StageSpeaks(stage: Stage, v: Json, c: Site, idx: nat, wanted: Wanted)
    ensures var s := RunStage(stage, v, c, idx); Speaks(s.log, s.taints, !StageDeclares(stage, wanted), wanted)
  {
    var s := RunStage(stage, v, c, idx);
    if stage.StagePlugin? {
      var ev := s.log[0];
      assert Emits(ev, wanted) <==> AnyTaint(s.taints, wanted);
    } else {
      assert s.log == [];
    }
  }

  lemma {:induction false} FlowSpeaks(stages: seq<Stage>, base: nat, v: Json, changed: bool, c: Site, wanted: Wanted)
    ensures var r := Flow(stages, base, v, changed, At(c));
      Speaks(r.log, r.taints, !StagesDeclare(stages, wanted), wanted)
    decreases |stages|
  {
    if stages != [] {
      var s, rest := RunStage(stages[0], v, c, base), stages[1..];
      StageSpeaks(stages[0], v, c, base, wanted);
      assert StagesDeclare(stages, wanted) <==> StageDeclares(stages[0], wanted) || StagesDeclare(rest, wanted) by {
        assert forall k :: 0 < k < |stages| ==> stages[k] == rest[k - 1];
      }
      if s.Go? {
        FlowSpeaks(rest, base + 1, s.value, changed || s.changed, c, wanted);
        var r := Flow(rest, base + 1, s.value, changed || s.changed, At(c));
        SpeaksConcat(s.log, s.taints, !StageDeclares(stages[0], wanted), r.log, r.taints, !StagesDeclare(rest, wanted),
                     wanted);
      }
    }
  }

  lemma EditSpeaks(root: Json, field: string, stages: seq<Stage>, site: Site, wanted: Wanted)
    ensures var e := EditField(root, field, stages, site);
      Speaks(e.log, e.taints, !StagesDeclare(stages, wanted), wanted)
  {
    var current := Get(root, Segments(field));
    if current.Some? { FlowSpeaks(stages, 0, current.value, false, site, wanted); }
  }

  lemma FieldOpSpeaks(path: string, stages: seq<Stage>, src: string, st: State, pos: Pos, phase: Phase, w: World,
                      wanted: Wanted)
    ensures var r := FieldOpRun(path, stages, src, st, pos, phase, w);
      Speaks(r.log, r.taints, !StagesDeclare(stages, wanted), wanted)
  {
    var args, result := StripPrefix(path, ARGS_PREFIX), StripPrefix(path, RESULT_PREFIX);
    if args.Some? {
      EditSpeaks(st.payload.args, args.value, stages, Site(st.bag, args.value, phase, pos, w), wanted);
    } else if result.Some? && st.payload.result.Some? {
      EditSpeaks(st.payload.result.value, result.value, stages, Site(st.bag, result.value, phase, pos, w), wanted);
    }
  }

  /** An elicitation step calls no plugin and taints nothing. */
  predicate Mute(r: Run) { r.taints == [] && forall i :: 0 <= i < |r.log| ==> !r.log[i].PluginCalled? }

  lemma CheckIsMute(step: ElicitStep, id: string, st: State, pos: Pos, phase: Phase, w: World)
    ensures Mute(CheckRun(step, id, st, pos, phase, w))
  {
    assert Mute(ValidateRun(step, id, st, pos, phase, w));
  }

  lemma ElicitIsMute(step: ElicitStep, st: State, pos: Pos, phase: Phase, w: World)
    ensures Mute(ElicitRun(step, st, pos, phase, w))
  {
    var from, id := ResolveFrom(step, st.bag), GetString(st.bag, ELICIT_ID);
    if from.None? { return; }
    if id.Some? { CheckIsMute(step, id.value, st, pos, phase, w); return; }
    var answer := w.dispatch(pos, step, from.value);
    if answer.Dispatched? {
      var bag := OpenedBag(st.bag, step, answer.id, answer.approver, answer.intentId, answer.expiresAt);
      CheckIsMute(step, answer.id, st.(bag := bag), pos, phase, w);
    }
  }

  lemma PluginSpeaks(name: string, st: State, pos: Pos, phase: Phase, w: World, wanted: Wanted)
    ensures var r := PluginRun(name, st, pos, phase, w); Speaks(r.log, r.taints, true, wanted)
  {
    var r := PluginRun(name, st, pos, phase, w);
    assert Emits(r.log[0], wanted) <==> AnyTaint(r.taints, wanted);
  }

  lemma LeafSpeaks(e: Effect, src: string, st: State, pos: Pos, phase: Phase, w: World, wanted: Wanted)
    requires IsLeaf(e)
    ensures var r := LeafRun(e, src, st, pos, phase, w); Speaks(r.log, r.taints, !EffectDeclares(e, wanted), wanted)
  {
    if e.Elicit? {
      ElicitIsMute(e.step, st, pos, phase, w);
    } else if e.FieldOp? {
      FieldOpSpeaks(e.path, e.stages, src, st, pos, phase, w, wanted);
    } else if e.Plugin? {
      PluginSpeaks(e.name, st, pos, phase, w, wanted);
    } else if e.Taint? {
      var r := LeafRun(e, src, st, pos, phase, w);
      assert r.log == [] && r.taints == [TaintEvent(e.tag, e.scopes)];
      assert r.taints[0] == TaintEvent(e.tag, e.scopes);
    }
  }

  // ----- phases and routes -----

  /** For every effect list, state, world and outcome: what a heard call emitted is reported, and
      nothing else is unless the configuration declares it. */
  lemma StepsSpeak(es: seq<Effect>, st: State, pos: Pos, phase: Phase, w: World, wanted: Wanted)
    ensures Speaks(HeardWalk(es, "", st, pos, 0, In(phase, w)), Steps(es, st, pos, In(phase, w)).taints,
                   AllLeaves(es, Undeclaring(wanted)), wanted)
  {
    forall e, src, st, pos | IsLeaf(e)
      ensures var r := In(phase, w).leaf(e, src, st, pos); Speaks(r.log, r.taints, Undeclaring(wanted)(e), wanted)
    {
      LeafSpeaks(e, src, st, pos, phase, w, wanted);
    }
    WalkSpeaks(es, "", st, pos, 0, In(phase, w), Undeclaring(wanted), wanted);
  }

  lemma {:induction false} RulesSpeak(rules: seq<FieldRule>, root: Json, k: nat, bag: Bag, phase: Phase, pos: Pos,
                                      w: World, wanted: Wanted)
    ensures var r := RunRules(rules, root, k, Pipelining(bag, phase, pos, w));
      Speaks(r.log, r.taints, !RulesDeclare(rules, wanted), wanted)
    decreases |rules|
  {
    if rules != [] {
      var rule, rest, pipe := rules[0], rules[1..], Pipelining(bag, phase, pos, w);
      EditSpeaks(root, rule.field, rule.stages, Site(bag, rule.field, phase, pos + [k], w), wanted);
      PipeliningEdits(rule, root, k, bag, phase, pos, w);
      assert RulesDeclare(rules, wanted) <==> StagesDeclare(rule.stages, wanted) || RulesDeclare(rest, wanted) by {
        assert forall i :: 0 < i < |rules| ==> rules[i] == rest[i - 1];
      }
      var e := Edited(rule, root, k, pipe);
      RulesSpeak(rest, e.root, k + 1, bag, phase, pos, w, wanted);
      var r := RunRules(rest, e.root, k + 1, pipe);
      SpeaksConcat(e.log, e.taints, !StagesDeclare(rule.stages, wanted), r.log, r.taints, !RulesDeclare(rest, wanted),
                   wanted);
    }
  }

  /** The calls of a phase that are heard: those of its field rules, and of its effects if reached. */
  function HeardPhase(fields: FieldsRun, st: State, effects: seq<Effect>, pos: Pos, phase: Phase, w: World): seq<Event>
  {
    fields.log + if fields.denied.Some? then [] else HeardWalk(effects, "", st, pos, 0, In(phase, w))
  }

  function HeardPre(route: CompiledRoute, st: State, w: World): seq<Event>
  {
    var fields := ArgsRun(route, st, w);
    HeardPhase(fields, st.(payload := st.payload.(args := fields.root)), route.policy, POLICY_AT, Pre, w)
  }

  function HeardPost(route: CompiledRoute, st: State, w: World): seq<Event>
  {
    if st.payload.result.None? then HeardPhase(NO_FIELDS, st, route.postPolicy, POST_POLICY_AT, Post, w)
    else
      var fields := ResultRun(route, st, w);
      HeardPhase(fields, st.(payload := st.payload.(result := Some(fields.root))), route.postPolicy, POST_POLICY_AT,
                 Post, w)
  }

  function HeardRoute(route: CompiledRoute, st: State, w: World): seq<Event>
  {
    var pre := PreRun(route, st, w);
    HeardPre(route, st, w) + if Forwards(pre.report) then HeardPost(route, pre.st, w) else []
  }

  /** The calls that cancelled branches of a phase had made. */
  function UnheardPhase(fields: FieldsRun, st: State, effects: seq<Effect>, pos: Pos, phase: Phase,
                        w: World): seq<Event>
  {
    if fields.denied.Some? then [] else UnheardWalk(effects, "", st, pos, 0, In(phase, w))
  }

  function UnheardPre(route: CompiledRoute, st: State, w: World): seq<Event>
  {
    var fields := ArgsRun(route, st, w);
    UnheardPhase(fields, st.(payload := st.payload.(args := fields.root)), route.policy, POLICY_AT, Pre, w)
  }

  function UnheardPost(route: CompiledRoute, st: State, w: World): seq<Event>
  {
    if st.payload.result.None? then UnheardPhase(NO_FIELDS, st, route.postPolicy, POST_POLICY_AT, Post, w)
    else
      var fields := ResultRun(route, st, w);
      UnheardPhase(fields, st.(payload := st.payload.(result := Some(fields.root))), route.postPolicy, POST_POLICY_AT,
                   Post, w)
  }

  /** Nothing in the phase declares such a taint. */
  predicate PreUndeclared(route: CompiledRoute, wanted: Wanted)
  {
    !RulesDeclare(route.args, wanted) && AllLeaves(route.policy, Undeclaring(wanted))
  }

  predicate PostUndeclared(route: CompiledRoute, wanted: Wanted)
  {
    !RulesDeclare(route.result, wanted) && AllLeaves(route.postPolicy, Undeclaring(wanted))
  }

  predicate RouteUndeclared(route: CompiledRoute, wanted: Wanted)
  {
    PreUndeclared(route, wanted) && PostUndeclared(route, wanted)
  }

  lemma PhaseSpeaks(fields: FieldsRun, st: State, effects: seq<Effect>, pos: Pos, phase: Phase, w: World, quiet: bool,
                    wanted: Wanted)
    requires Speaks(fields.log, fields.taints, quiet, wanted)
    ensures Speaks(HeardPhase(fields, st, effects, pos, phase, w),
                   PhaseOf(fields, st, effects, pos, phase, w).report.taints,
                   quiet && AllLeaves(effects, Undeclaring(wanted)), wanted)
  {
    if fields.denied.None? {
      StepsSpeak(effects, st, pos, phase, w, wanted);
      SpeaksConcat(fields.log, fields.taints, quiet, HeardWalk(effects, "", st, pos, 0, In(phase, w)),
                   Steps(effects, st, pos, In(phase, w)).taints, AllLeaves(effects, Undeclaring(wanted)), wanted);
    } else {
      assert fields.log + [] == fields.log;
    }
  }

  lemma PhaseAccounted(fields: FieldsRun, st: State, effects: seq<Effect>, pos: Pos, phase: Phase, w: World)
    ensures Sums(HeardPhase(fields, st, effects, pos, phase, w), UnheardPhase(fields, st, effects, pos, phase, w),
                 PhaseOf(fields, st, effects, pos, phase, w).log)
  {
    var env := In(phase, w);
    WalkAccounted(effects, "", st, pos, 0, env);
    var unheard := UnheardWalk(effects, "", st, pos, 0, env);
    AllHeard(fields.log);
    if fields.denied.None? {
      SumsConcat(fields.log, [], fields.log, HeardWalk(effects, "", st, pos, 0, env), unheard,
                 Steps(effects, st, pos, env).log);
      assert [] + unheard == unheard;
    } else {
      assert fields.log + [] == fields.log;
    }
  }

  lemma PreSpeaks(route: CompiledRoute, st: State, w: World, wanted: Wanted)
    ensures Speaks(HeardPre(route, st, w), PreRun(route, st, w).report.taints, PreUndeclared(route, wanted), wanted)
  {
    var fields := ArgsRun(route, st, w);
    RulesSpeak(route.args, st.payload.args, 0, st.bag, Pre, ARGS_AT, w, wanted);
    PhaseSpeaks(fields, st.(payload := st.payload.(args := fields.root)), route.policy, POLICY_AT, Pre, w,
                !RulesDeclare(route.args, wanted), wanted);
  }

  lemma PostSpeaks(route: CompiledRoute, st: State, w: World, wanted: Wanted)
    ensures Speaks(HeardPost(route, st, w), PostRun(route, st, w).report.taints, PostUndeclared(route, wanted), wanted)
  {
    if st.payload.result.None? {
      PhaseSpeaks(NO_FIELDS, st, route.postPolicy, POST_POLICY_AT, Post, w, !RulesDeclare(route.result, wanted),
                  wanted);
    } else {
      var fields := ResultRun(route, st, w);
      RulesSpeak(route.result, st.payload.result.value, 0, st.bag, Post, RESULT_AT, w, wanted);
      PhaseSpeaks(fields, st.(payload := st.payload.(result := Some(fields.root))), route.postPolicy, POST_POLICY_AT,
                  Post, w, !RulesDeclare(route.result, wanted), wanted);
    }
  }

  lemma RouteSpeaks(route: CompiledRoute, st: State, w: World, wanted: Wanted)
    ensures Speaks(HeardRoute(route, st, w), RouteRun(route, st, w).report.taints, RouteUndeclared(route, wanted),
                   wanted)
  {
    var pre := PreRun(route, st, w);
    PreSpeaks(route, st, w, wanted);
    if Forwards(pre.report) {
      PostSpeaks(route, pre.st, w, wanted);
      SpeaksConcat(HeardPre(route, st, w), pre.report.taints, PreUndeclared(route, wanted),
                   HeardPost(route, pre.st, w), PostRun(route, pre.st, w).report.taints, PostUndeclared(route, wanted),
                   wanted);
    } else {
      assert HeardPre(route, st, w) + [] == HeardPre(route, st, w);
    }
  }

  /** Each call of a pre phase is heard or was made by a cancelled branch, and not both. */
  lemma PreAccounted(route: CompiledRoute, st: State, w: World)
    ensures Parted(HeardPre(route, st, w), UnheardPre(route, st, w), PreRun(route, st, w).log)
  {
    var fields := ArgsRun(route, st, w);
    PhaseAccounted(fields, st.(payload := st.payload.(args := fields.root)), route.policy, POLICY_AT, Pre, w);
    RoutePlaces.PrePlaced(route, st, w);
    DistinctParts(HeardPre(route, st, w), UnheardPre(route, st, w), PreRun(route, st, w).log);
  }

  lemma PostAccounted(route: CompiledRoute, st: State, w: World)
    ensures Parted(HeardPost(route, st, w), UnheardPost(route, st, w), PostRun(route, st, w).log)
  {
    if st.payload.result.None? {
      PhaseAccounted(NO_FIELDS, st, route.postPolicy, POST_POLICY_AT, Post, w);
    } else {
      var fields := ResultRun(route, st, w);
      PhaseAccounted(fields, st.(payload := st.payload.(result := Some(fields.root))), route.postPolicy, POST_POLICY_AT,
                     Post, w);
    }
    RoutePlaces.PostPlaced(route, st, w);
    DistinctParts(HeardPost(route, st, w), UnheardPost(route, st, w), PostRun(route, st, w).log);
  }

  // ----- the label calls behind a log -----

  function SessionTag(l: string): Wanted { (t: TaintEvent) => t.tag == l && Session in t.scopes }

  lemma SessionTagIsLabel(taints: seq<TaintEvent>, l: string)
    ensures AnyTaint(taints, SessionTag(l)) <==> l in Labels.SessionLabels(taints)
  {
  }

  /** The call's answer carries as session taints exactly the labels it added to its snapshot. */
  ghost predicate Reports(ev: Event, added: set<string>)
  {
    ev.PluginCalled? && forall l :: Emits(ev, SessionTag(l)) <==> l in added
  }

  function AddedBy(s: Labels.Shared, a: Labels.Action): set<string>
    requires Labels.Enabled(s, a)
  {
    match a
    case End(call, Some(after)) => after - s.running[call]
    case _ => {}
  }

  /** An interleaving of label calls that a log tells of: call `i` is the log's event `i`. */
  ghost predicate Told(s: Labels.Shared, actions: seq<Labels.Action>, log: seq<Event>)
    requires Labels.Possible(s, actions)
    decreases |actions|
  {
    actions == [] ||
    (&& (actions[0].End? ==> actions[0].call < |log| && Reports(log[actions[0].call], AddedBy(s, actions[0])))
     && Told(Labels.Step(s, actions[0]), actions[1..], log))
  }

  /** Every logged plugin call has ended. */
  predicate Complete(actions: seq<Labels.Action>, log: seq<Event>)
  {
    forall i :: 0 <= i < |log| && log[i].PluginCalled? ==>
      exists k :: 0 <= k < |actions| && actions[k].End? && actions[k].call == i
  }

  lemma {:induction false} AddedIsEmitted(s: Labels.Shared, actions: seq<Labels.Action>, log: seq<Event>, l: string)
    requires Labels.Possible(s, actions) && Told(s, actions, log)
    ensures l in Labels.Added(s, actions) ==> AnyEmits(log, SessionTag(l))
    decreases |actions|
  {
    if actions != [] {
      if actions[0].End? && l in AddedBy(s, actions[0]) { assert Emits(log[actions[0].call], SessionTag(l)); }
      AddedIsEmitted(Labels.Step(s, actions[0]), actions[1..], log, l);
    }
  }

  lemma {:induction false} EmittedIsAdded(s: Labels.Shared, actions: seq<Labels.Action>, log: seq<Event>, k: nat,
                                          l: string)
    requires Labels.Possible(s, actions) && Told(s, actions, log)
    requires k < |actions| && actions[k].End?
    ensures actions[k].call < |log|
    ensures Emits(log[actions[k].call], SessionTag(l)) ==> l in Labels.Added(s, actions)
    decreases k
  {
    if k > 0 { EmittedIsAdded(Labels.Step(s, actions[0]), actions[1..], log, k - 1, l); }
  }

  // ----- what a request settles on -----

  /** The labels after `apply_session_taints`. */
  function SettledOn(initial: set<string>, actions: seq<Labels.Action>, taints: seq<TaintEvent>): set<string>
    requires Labels.Possible(Labels.Start(initial), actions)
  {
    Labels.Finish(Labels.Start(initial), actions).labels + Labels.SessionLabels(taints)
  }

  /** The account of one label: it is there if it was there at first or a heard call added it.  Unless
      the configuration declares it, it never comes out of nowhere; and what a call added is lost exactly
      when every call that added it was made by a cancelled branch and the last write-back returned
      without it, which takes a call that overlapped one that added it. */
  ghost predicate Accountable(l: string, initial: set<string>, actions: seq<Labels.Action>, log: seq<Event>,
                              heard: seq<Event>, unheard: seq<Event>, taints: seq<TaintEvent>, undeclared: bool)
    requires Labels.Possible(Labels.Start(initial), actions)
  {
    var settled, added := SettledOn(initial, actions, taints), Labels.Added(Labels.Start(initial), actions);
    && (l in initial || AnyEmits(heard, SessionTag(l)) ==> l in settled)
    && (undeclared ==>
          && (l in settled ==> l in initial + added)
          && (l in added ==>
                (l !in settled <==> Labels.LastDrops(actions, l) && AllUnheard(log, unheard, SessionTag(l))))
          && (l in added && l !in settled ==> Labels.Overlapped(Labels.Start(initial), actions, l))
          && (unheard == [] ==> (l in settled <==> l in initial + added)))
  }

  /** Every call with such a taint was made by a cancelled branch. */
  predicate AllUnheard(log: seq<Event>, unheard: seq<Event>, wanted: Wanted)
  {
    forall i :: 0 <= i < |log| && Emits(log[i], wanted) ==> log[i] in unheard
  }

  lemma HeardOrNot(log: seq<Event>, heard: seq<Event>, unheard: seq<Event>, wanted: Wanted)
    requires Parted(heard, unheard, log)
    ensures AnyEmits(heard, wanted) <==> !AllUnheard(log, unheard, wanted)
    ensures AnyEmits(heard, wanted) ==> AnyEmits(log, wanted)
  {
    if AnyEmits(heard, wanted) {
      var j :| 0 <= j < |heard| && Emits(heard[j], wanted);
      assert heard[j] in multiset(heard) && heard[j] in multiset(log) && heard[j] in log;
      var i :| 0 <= i < |log| && log[i] == heard[j];
      assert Emits(log[i], wanted) && log[i] in heard;
    }
    if !AllUnheard(log, unheard, wanted) {
      var i :| 0 <= i < |log| && Emits(log[i], wanted) && log[i] !in unheard;
      assert log[i] in heard;
      var j :| 0 <= j < |heard| && heard[j] == log[i];
      assert Emits(heard[j], wanted);
    }
  }

  lemma LabelIsAccountable(l: string, initial: set<string>, actions: seq<Labels.Action>, log: seq<Event>,
                           heard: seq<Event>, unheard: seq<Event>, taints: seq<TaintEvent>, undeclared: bool)
    requires Fits(initial, actions, log) && Parted(heard, unheard, log)
    requires Speaks(heard, taints, undeclared, SessionTag(l))
    ensures Accountable(l, initial, actions, log, heard, unheard, taints, undeclared)
  {
    var start := Labels.Start(initial);
    SessionTagIsLabel(taints, l);
    HeardOrNot(log, heard, unheard, SessionTag(l));
    Labels.TaintsRepair(initial, actions);
    AddedIsEmitted(start, actions, log, l);
    if AnyEmits(log, SessionTag(l)) {
      var i :| 0 <= i < |log| && Emits(log[i], SessionTag(l));
      var k :| 0 <= k < |actions| && actions[k].End? && actions[k].call == i;
      EmittedIsAdded(start, actions, log, k, l);
    }
    if l in Labels.Added(start, actions) {
      Labels.GoneExactlyWhen(start, actions, l);
      if l !in Labels.Finish(start, actions).labels { Labels.LossTakesOverlap(start, actions, l); }
    }
  }

  /** An interleaving of label calls that fits the calls of a run. */
  ghost predicate Fits(initial: set<string>, actions: seq<Labels.Action>, log: seq<Event>)
  {
    var start := Labels.Start(initial);
    Labels.Possible(start, actions) && Told(start, actions, log) && Complete(actions, log)
  }

  /** Whatever a request's pre phase decides, and however its plugin calls interleave. */
  lemma PreLabels(route: CompiledRoute, st: State, w: World, initial: set<string>, actions: seq<Labels.Action>,
                  l: string)
    requires Fits(initial, actions, PreRun(route, st, w).log)
    ensures var r := PreRun(route, st, w);
      Accountable(l, initial, actions, r.log, HeardPre(route, st, w), UnheardPre(route, st, w), r.report.taints,
                  PreUndeclared(route, SessionTag(l)))
  {
    var r := PreRun(route, st, w);
    PreSpeaks(route, st, w, SessionTag(l));
    PreAccounted(route, st, w);
    LabelIsAccountable(l, initial, actions, r.log, HeardPre(route, st, w), UnheardPre(route, st, w), r.report.taints,
                       PreUndeclared(route, SessionTag(l)));
  }

  lemma PostLabels(route: CompiledRoute, st: State, w: World, initial: set<string>, actions: seq<Labels.Action>,
                   l: string)
    requires Fits(initial, actions, PostRun(route, st, w).log)
    ensures var r := PostRun(route, st, w);
      Accountable(l, initial, actions, r.log, HeardPost(route, st, w), UnheardPost(route, st, w), r.report.taints,
                  PostUndeclared(route, SessionTag(l)))
  {
    var r := PostRun(route, st, w);
    PostSpeaks(route, st, w, SessionTag(l));
    PostAccounted(route, st, w);
    LabelIsAccountable(l, initial, actions, r.log, HeardPost(route, st, w), UnheardPost(route, st, w), r.report.taints,
                       PostUndeclared(route, SessionTag(l)));
  }

  /** An allowed phase had no branch cancelled, so it loses nothing. */
  lemma AllowedIsHeard(fields: FieldsRun, st: State, effects: seq<Effect>, pos: Pos, phase: Phase, w: World)
    requires Purity.AllClean(effects) && (fields.denied.Some? ==> fields.denied.value.Denied?)
    ensures var r := PhaseOf(fields, st, effects, pos, phase, w);
      r.report.decision.Allowed? ==>
        HeardPhase(fields, st, effects, pos, phase, w) == r.log &&
          UnheardPhase(fields, st, effects, pos, phase, w) == []
  {
    FailClosed.EngineTrusted(phase, w);
    FailClosed.CleanListIsCareful(effects, "", st, pos, 0, In(phase, w));
    WalkAccounted(effects, "", st, pos, 0, In(phase, w));
  }

  // ----- to later requests -----

  /** The report of a request's phase, and the calls heard in it. */
  ghost predicate Reported(taints: seq<TaintEvent>, heard: seq<Event>, route: CompiledRoute, st: State, w: World)
  {
    || (taints == PreRun(route, st, w).report.taints && heard == HeardPre(route, st, w))
    || (taints == PostRun(route, st, w).report.taints && heard == HeardPost(route, st, w))
  }

  /** A label that a heard call of a request's phase added, and that the request did not come with, is in
      every request of the session that loads after this one persisted: allowed, suspended or denied,
      and whatever happens in between. */
  lemma HeardLabelReachesLaterRequests(route: CompiledRoute, st: State, w: World, heard: seq<Event>, l: string,
                                       s: Sessions.System, id: nat, between: seq<Sessions.Event>, later: nat,
                                       inbound: set<string>)
    requires Sessions.AllFaithful(s) && id in s.requests && Sessions.Can(s, Sessions.Persist(id))
    requires Reported(s.requests[id].taints, heard, route, st, w) && AnyEmits(heard, SessionTag(l))
    requires s.requests[id].sid.Some? && l !in s.requests[id].inbound
    requires Sessions.Runs(s, [Sessions.Persist(id)] + (between + [Sessions.Load(later, s.requests[id].sid, inbound)]))
    ensures var load := Sessions.Load(later, s.requests[id].sid, inbound);
      var end := Sessions.After(s, [Sessions.Persist(id)] + (between + [load]));
      later in end.requests && l in end.requests[later].initial
  {
    PreSpeaks(route, st, w, SessionTag(l));
    PostSpeaks(route, st, w, SessionTag(l));
    SessionTagIsLabel(s.requests[id].taints, l);
    Sessions.TaintReachesLaterRequests(s, id, l, between, later, inbound);
  }

  // ----- the label that is lost -----

  /** What the plugins answer in the example: the first adds `l` and allows, the second adds `m` and denies. */
  predicate Answers(w: World, pos: Pos, a: string, l: string, b: string, m: string, bag: Bag, phase: Phase)
  {
    var first, second := w.plugin(pos + [0], a, bag, StepCall(phase)), w.plugin(pos + [1], b, bag, StepCall(phase));
    && first == PluginOk(Allowed, [TaintEvent(l, [Session])], None)
    && second.PluginOk? && second.decision.Denied? && second.taints == [TaintEvent(m, [Session])]
  }

  /** Two calls run side by side, both from the same snapshot.  The second denies and overwrites what the
      first added; the first branch is cancelled, so its taint is not reported either. */
  lemma LabelIsLost(a: string, l: string, b: string, m: string, st: State, pos: Pos, phase: Phase, w: World,
                    initial: set<string>)
    requires w.cancels(pos + [0], 0) && !w.cancels(pos + [0], 1) && w.made(pos + [0], 0, 0)
    requires Answers(w, pos + [0], a, l, b, m, st.bag, phase) && l != m && l !in initial && m !in initial
    ensures var r := Steps([Parallel([Plugin(a), Plugin(b)])], st, pos, In(phase, w));
      var actions := Labels.Overwriting(initial, l, m);
      && Fits(initial, actions, r.log) && l in Labels.Added(Labels.Start(initial), actions)
      && l !in SettledOn(initial, actions, r.taints)
  {
    var env, at := In(phase, w), pos + [0];
    var x, y := PluginRun(a, st, at + [0], phase, w), PluginRun(b, st, at + [1], phase, w);
    var e := Parallel([Plugin(a), Plugin(b)]);
    FirstCancelled(Plugin(a), Plugin(b), "", st, at, env);
    assert x.log[1..] == [] && Made(x.log, 0, at, 0, w) == [x.log[0]] + [] == x.log;
    assert Steps([e], st, pos, env) == Exec(e, "", st, at, env);
    var log, actions := x.log + y.log, Labels.Overwriting(initial, l, m);
    Labels.OverwriteLoses(initial, l, m);
    OverwritingIsTold(initial, l, m, log);
    SessionTagIsLabel(y.taints, l);
    assert !SessionTag(l)(y.taints[0]);
  }

  predicate Carries(ev: Event, l: string)
  {
    ev.PluginCalled? && ev.plugin.PluginOk? && ev.plugin.taints == [TaintEvent(l, [Session])]
  }

  lemma CarriesReports(ev: Event, l: string)
    requires Carries(ev, l)
    ensures Reports(ev, {l})
  {
    assert ev.plugin.taints[0] == TaintEvent(l, [Session]);
  }

  lemma OverwritingIsTold(initial: set<string>, l: string, m: string, log: seq<Event>)
    requires |log| == 2 && Carries(log[0], l) && Carries(log[1], m) && l != m && l !in initial && m !in initial
    ensures Fits(initial, Labels.Overwriting(initial, l, m), log)
  {
    var actions, s0 := Labels.Overwriting(initial, l, m), Labels.Start(initial);
    Labels.OverwriteLoses(initial, l, m);
    CarriesReports(log[0], l);
    CarriesReports(log[1], m);
    var s1 := Labels.Step(s0, actions[0]);
    var s2 := Labels.Step(s1, actions[1]);
    var s3 := Labels.Step(s2, actions[2]);
    assert AddedBy(s2, actions[2]) == {l} && AddedBy(s3, actions[3]) == {m};
    assert Told(s3, actions[1..][1..][1..], log);
    assert Told(s2, actions[1..][1..], log);
    assert Told(s1, actions[1..], log);
    assert actions[2].End? && actions[2].call == 0 && actions[3].End? && actions[3].call == 1;
  }
}
