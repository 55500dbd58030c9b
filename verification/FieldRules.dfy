/** The per-field pipelines of a route (`args:` and `result:` in `route.rs`).  Their order comes
    from iterating a hash map (`compile_apl_blocks` in `parser.rs`), so it must not matter. */
module FieldRules {
  import opened Text
  import opened Json
  import opened Ir
  import opened World
  import opened Pipelines
  import opened Leaves
  import Evaluator

  /** What running field rules over one side of the payload did. */
  datatype FieldsRun = FieldsRun(
    denied: Option<Decision>,
    root: Json,
    modified: bool,
    taints: seq<TaintEvent>,
    log: seq<Event>)

  /** What a rule's pipeline makes of a value, at a position in the list. */
  type Piping = (FieldRule, Json, nat) -> PipeRun

  function Edited(rule: FieldRule, root: Json, k: nat, pipe: Piping): FieldEdit
  {
    match Get(root, Segments(rule.field))
    case None => FieldEdit(None, root, false, [], [])
    case Some(v) => Applied(root, Segments(rule.field), pipe(rule, v, k))
  }

  /** Rules in order, up to the first rejection. */
  function RunRules(rules: seq<FieldRule>, root: Json, k: nat, pipe: Piping): FieldsRun
  {
    if rules == [] then FieldsRun(None, root, false, [], [])
    else
      var e := Edited(rules[0], root, k, pipe);
      if e.rejected.Some? then
        FieldsRun(Some(Denied(e.rejected, rules[0].source)), e.root, e.modified, e.taints, e.log)
      else FollowedBy(e, RunRules(rules[1..], e.root, k + 1, pipe))
  }

  function FollowedBy(e: FieldEdit, r: FieldsRun): FieldsRun
  {
    FieldsRun(r.denied, r.root, e.modified || r.modified, e.taints + r.taints, e.log + r.log)
  }

  lemma RulesStep(rules: seq<FieldRule>, i: nat, done: FieldEdit, pipe: Piping)
    requires i < |rules| && done.rejected.None?
    ensures var e := Edited(rules[i], done.root, i, pipe);
      var both := FieldEdit(None, e.root, done.modified || e.modified, done.taints + e.taints, done.log + e.log);
      FollowedBy(done, RunRules(rules[i..], done.root, i, pipe)) ==
      if e.rejected.Some? then
        FieldsRun(Some(Denied(e.rejected, rules[i].source)), e.root, both.modified, both.taints, both.log)
      else FollowedBy(both, RunRules(rules[i + 1..], e.root, i + 1, pipe))
  {
    assert rules[i..][0] == rules[i] && rules[i..][1..] == rules[i + 1..];
    var e := Edited(rules[i], done.root, i, pipe);
    var rest := RunRules(rules[i + 1..], e.root, i + 1, pipe);
    assert done.taints + (e.taints + rest.taints) == done.taints + e.taints + rest.taints;
    assert done.log + (e.log + rest.log) == done.log + e.log + rest.log;
  }

  /** The pipelines of the engine, at positions below `pos`. */
  function Pipelining(bag: Bag, phase: Phase, pos: Pos, w: World): Piping
  {
    (rule: FieldRule, v: Json, k: nat) => Evaluate(rule.stages, v, Site(bag, rule.field, phase, pos + [k], w))
  }

  lemma PipeliningEdits(rule: FieldRule, root: Json, k: nat, bag: Bag, phase: Phase, pos: Pos, w: World)
    ensures EditField(root, rule.field, rule.stages, Site(bag, rule.field, phase, pos + [k], w)) ==
      Edited(rule, root, k, Pipelining(bag, phase, pos, w))
  {
  }

  /** The loop over field rules in `evaluate_pre` and `evaluate_post`. */
  method EvaluateFields(rules: seq<FieldRule>, root: Json, bag: Bag, phase: Phase, pos: Pos, w: World)
    returns (denied: Option<Decision>, updated: Json, modified: bool, taints: seq<TaintEvent>, ghost log: seq<Event>)
    ensures var r := RunRules(rules, root, 0, Pipelining(bag, phase, pos, w));
      denied == r.denied && updated == r.root && modified == r.modified && taints == r.taints
    ensures log == RunRules(rules, root, 0, Pipelining(bag, phase, pos, w)).log
  {
    ghost var pipe := Pipelining(bag, phase, pos, w);
    denied, updated, modified, taints, log := None, root, false, [], [];
    var i := 0;
    assert rules[0..] == rules;
    while i < |rules|
      invariant 0 <= i <= |rules| && denied.None?
      invariant RunRules(rules, root, 0, pipe) ==
        FollowedBy(FieldEdit(None, updated, modified, taints, log), RunRules(rules[i..], updated, i, pipe))
    {
      RulesStep(rules, i, FieldEdit(None, updated, modified, taints, log), pipe);
      PipeliningEdits(rules[i], updated, i, bag, phase, pos, w);
      var rejected, next, now, emitted;
      ghost var events;
      rejected, next, now, emitted, events :=
        Evaluator.RunOnField(updated, rules[i].field, rules[i].stages, Site(bag, rules[i].field, phase, pos + [i], w));
      updated, modified, taints, log := next, modified || now, taints + emitted, log + events;
      if rejected.Some? {
        denied := Some(Denied(rejected, rules[i].source));
        return;
      }
      i := i + 1;
    }
  }

  // ----- edits of one field -----

  /** A written field reads back as the pipeline left it, an omitted one is gone, and the flag is
      raised exactly for these two. */
  lemma EditIsSeen(rule: FieldRule, root: Json, k: nat, pipe: Piping)
    ensures var p, e := Segments(rule.field), Edited(rule, root, k, pipe);
      match Get(root, p)
      case None => e.root == root && !e.modified
      case Some(v) =>
        match pipe(rule, v, k).outcome
        case Replace(v') => e.modified && Get(e.root, p) == Some(v')
        case OmitField => e.modified && Get(e.root, p) == None
        case _ => !e.modified && e.root == root
  {
    var p := Segments(rule.field);
    match Get(root, p) {
      case None =>
      case Some(v) =>
        var o := pipe(rule, v, k).outcome;
        if o.Replace? {
          FoundCanBeEdited(root, p, o.value);
          GetAfterSet(root, p, [], o.value);
          assert p + [] == p;
        } else if o.OmitField? {
          FoundCanBeEdited(root, p, Null);
          GetAfterRemove(root, p, []);
          assert p + [] == p;
        }
    }
  }

  /** An edit keeps every path apart from its own. */
  lemma EditKeepsApart(rule: FieldRule, root: Json, k: nat, pipe: Piping, q: Path)
    requires Apart(Segments(rule.field), q)
    ensures Get(Edited(rule, root, k, pipe).root, q) == Get(root, q)
  {
    var p := Segments(rule.field);
    match Get(root, p) {
      case None =>
      case Some(v) =>
        var o := pipe(rule, v, k).outcome;
        GetApart(root, p, q, if o.Replace? then o.value else Null);
    }
  }

  /** Through all the rules, a path apart from every declared field keeps its value. */
  lemma {:induction false} RulesKeepApart(rules: seq<FieldRule>, root: Json, k: nat, pipe: Piping, q: Path)
    requires forall i :: 0 <= i < |rules| ==> Apart(Segments(rules[i].field), q)
    ensures Get(RunRules(rules, root, k, pipe).root, q) == Get(root, q)
    decreases |rules|
  {
    if rules != [] {
      EditKeepsApart(rules[0], root, k, pipe, q);
      RulesKeepApart(rules[1..], Edited(rules[0], root, k, pipe).root, k + 1, pipe, q);
    }
  }

  /** A lowered flag means the side is untouched. */
  lemma {:induction false} RulesFlagHonest(rules: seq<FieldRule>, root: Json, k: nat, pipe: Piping)
    ensures !RunRules(rules, root, k, pipe).modified ==> RunRules(rules, root, k, pipe).root == root
    decreases |rules|
  {
    if rules != [] {
      EditIsSeen(rules[0], root, k, pipe);
      RulesFlagHonest(rules[1..], Edited(rules[0], root, k, pipe).root, k + 1, pipe);
    }
  }
}
