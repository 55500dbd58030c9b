/** Field pipelines (`evaluate_pipeline` in `evaluator.rs`). */
module Pipelines {
  import opened Text
  import opened Json
  import opened Ir
  import opened Attributes
  import opened World

  datatype FieldOutcome = Pass | Replace(value: Json) | OmitField | Reject(reason: Reason, stage: nat)

  /** What a pipeline did to its field, the taints it emitted and the calls it made. */
  datatype PipeRun = PipeRun(outcome: FieldOutcome, taints: seq<TaintEvent>, log: seq<Event>)

  /** One stage either hands a value on or ends the pipeline. */
  datatype StageStep =
    | Go(value: Json, changed: bool, taints: seq<TaintEvent>, log: seq<Event>)
    | Stop(outcome: FieldOutcome, taints: seq<TaintEvent>, log: seq<Event>)

  /** Where a pipeline runs: the bag it reads, the field it is attached to, the phase. */
  datatype Site = Site(bag: Bag, field: string, phase: Phase, pos: Pos, w: World)

  const REDACTED: Json := Str("[REDACTED]")

  predicate IsUuidShape(s: string)
  {
    |s| == 36 && forall i :: 0 <= i < 36 ==>
      if i == 8 || i == 13 || i == 18 || i == 23 then s[i] == '-' else IsHexDigit(s[i])
  }

  predicate TypeCheckOk(tc: TypeCheck, v: Json)
  {
    match tc
    case TStr => v.Str?
    case TInt => v.Num? && v.n.I64?
    case TBool => v.Bool?
    case TFloat => v.Num? && (v.n.F64? || v.n.I64?)
    case TEmail => v.Str? && '@' in v.s && '.' in v.s
    case TUrl => v.Str? && ("http://" <= v.s || "https://" <= v.s)
    case TUuid => v.Str? && IsUuidShape(v.s)
  }

  /** Replace all but the last `keep` characters by `*`. */
  function MaskString(s: string, keep: nat): (m: string)
    ensures |m| == |s|
  {
    var hidden := |s| - (if keep < |s| then keep else |s|);
    seq(|s|, i requires 0 <= i < |s| => if i < hidden then '*' else s[i])
  }

  function ScanTag(kind: ScanKind): string
  {
    if kind.InjectionScan? then "injection" else "PII"
  }

  function Fail(fault: FieldFault, idx: nat): StageStep
  {
    Stop(Reject(FieldRejected(fault), idx), [], [])
  }

  function Keep(v: Json): StageStep { Go(v, false, [], []) }

  function Become(v: Json): StageStep { Go(v, true, [], []) }

  function PluginStage(name: string, v: Json, c: Site, idx: nat): (s: StageStep)
    ensures Orderly(s, v)
  {
    var at := c.pos + [idx];
    var answer := c.w.plugin(at, name, c.bag, FieldCall(c.field, v, c.phase));
    var log := [PluginCalled(at, name, answer)];
    match answer
    case PluginErr(e) => Stop(Reject(PluginFailed(name, e), idx), [], log)
    case PluginOk(Denied(reason, _), taints, _) =>
      Stop(Reject(if reason.Some? then reason.value else PluginDenied(name), idx), taints, log)
    case PluginOk(Allowed, taints, modified) =>
      if modified.Some? then Go(modified.value, true, taints, log) else Go(v, false, taints, log)
  }

  function RunStage(stage: Stage, v: Json, c: Site, idx: nat): (s: StageStep)
    ensures Orderly(s, v)
  {
    match stage
    case Type(tc) => if TypeCheckOk(tc, v) then Keep(v) else Fail(WrongType(tc), idx)
    case Length(lo, hi) =>
      if !v.Str? then Fail(NeedsString, idx)
      else if (lo.Some? && |v.s| < lo.value) || (hi.Some? && |v.s| > hi.value) then Fail(OutOfBounds, idx)
      else Keep(v)
    case Range(lo, hi) =>
      if !v.Num? || !v.n.I64? then Fail(NeedsInteger, idx)
      else if (lo.Some? && v.n.i < lo.value) || (hi.Some? && v.n.i > hi.value) then Fail(OutOfBounds, idx)
      else Keep(v)
    case Enum(values) =>
      if !v.Str? then Fail(NeedsString, idx) else if v.s !in values then Fail(NotInEnum, idx) else Keep(v)
    case Regex(pattern) =>
      if !c.w.host.regexValid(pattern) then Fail(BadRegex, idx)
      else if !v.Str? then Fail(NeedsString, idx)
      else if c.w.host.regexMatch(pattern, v.s) then Keep(v) else Fail(NoMatch, idx)
    case Validate(name) => Fail(NoSuchValidator(name), idx)
    case Mask(keep) => if v.Str? then Become(Str(MaskString(v.s, keep))) else Fail(NeedsString, idx)
    case Redact(condition) =>
      if condition.None? || Eval(condition.value, c.bag, c.w.host) then Become(REDACTED) else Keep(v)
    case Omit => Stop(OmitField, [], [])
    case Hash => Become(Str(c.w.host.digest(v)))
    case StageTaint(tag, scopes) => Go(v, false, [TaintEvent(tag, scopes)], [])
    case StagePlugin(name) => PluginStage(name, v, c, idx)
    case Scan(kind) =>
      var taints := [TaintEvent(ScanTag(kind), [Session])];
      if kind.PiiRedact? then Go(REDACTED, true, taints, []) else Go(v, false, taints, [])
  }

  function After(taints: seq<TaintEvent>, log: seq<Event>, r: PipeRun): (p: PipeRun)
    ensures taints == [] && log == [] ==> p == r
  {
    PipeRun(r.outcome, taints + r.taints, log + r.log)
  }

  lemma AfterAfter(t1: seq<TaintEvent>, l1: seq<Event>, t2: seq<TaintEvent>, l2: seq<Event>, r: PipeRun)
    ensures After(t1, l1, After(t2, l2, r)) == After(t1 + t2, l1 + l2, r)
  {
    assert t1 + (t2 + r.taints) == t1 + t2 + r.taints;
    assert l1 + (l2 + r.log) == l1 + l2 + r.log;
  }

  /** How one stage runs at one site. */
  type Runner = (Stage, Json, nat) -> StageStep

  function At(c: Site): Runner { (stage: Stage, v: Json, idx: nat) => RunStage(stage, v, c, idx) }

  /** Run `stages`, whose first has index `base`, on a value that earlier stages may have changed. */
  function Flow(stages: seq<Stage>, base: nat, v: Json, changed: bool, run: Runner): PipeRun
  {
    if stages == [] then PipeRun(if changed then Replace(v) else Pass, [], [])
    else
      match run(stages[0], v, base)
      case Stop(outcome, taints, log) => PipeRun(outcome, taints, log)
      case Go(next, now, taints, log) => After(taints, log, Flow(stages[1..], base + 1, next, changed || now, run))
  }

  function Evaluate(stages: seq<Stage>, v: Json, c: Site): PipeRun
  {
    Flow(stages, 0, v, false, At(c))
  }

  /** `evaluate_pipeline`: the loop over stages, updating `current`, `replaced` and `taints`. */
  method EvaluatePipeline(stages: seq<Stage>, value: Json, c: Site)
    returns (outcome: FieldOutcome, taints: seq<TaintEvent>, ghost log: seq<Event>)
    ensures var r := Evaluate(stages, value, c); outcome == r.outcome && taints == r.taints
    ensures log == Evaluate(stages, value, c).log
  {
    var current, replaced := value, false;
    taints := [];
    log := [];
    var i := 0;
    assert stages[0..] == stages;
    while i < |stages|
      invariant 0 <= i <= |stages|
      invariant Evaluate(stages, value, c) == After(taints, log, Flow(stages[i..], i, current, replaced, At(c)))
    {
      assert stages[i..][1..] == stages[i + 1..];
      var step := RunStage(stages[i], current, c, i);
      match step {
        case Stop(o, t, l) =>
          return o, taints + t, log + l;
        case Go(next, now, t, l) =>
          AfterAfter(taints, log, t, l, Flow(stages[i + 1..], i + 1, next, replaced || now, At(c)));
          current, replaced := next, replaced || now;
          taints := taints + t;
          log := log + l;
      }
      i := i + 1;
    }
    assert taints + [] == taints && log + [] == log;
    outcome := if replaced then Replace(current) else Pass;
  }

  // ----- composition -----

  /** Continue with stages `q` where a run of earlier stages on `v` left off. */
  function Resume(r: PipeRun, q: seq<Stage>, base: nat, v: Json, changed: bool, run: Runner): PipeRun
  {
    match r.outcome
    case Pass => After(r.taints, r.log, Flow(q, base, v, changed, run))
    case Replace(v') => After(r.taints, r.log, Flow(q, base, v', true, run))
    case _ => r
  }

  /** A stage that hands on without changing hands on its input, and one that stops omits or rejects. */
  predicate Orderly(s: StageStep, v: Json)
  {
    match s
    case Go(next, now, _, _) => now || next == v
    case Stop(outcome, _, _) => outcome.OmitField? || outcome.Reject?
  }

  ghost predicate OrderlyRunner(run: Runner)
  {
    forall stage, v, idx :: Orderly(run(stage, v, idx), v)
  }

  lemma ResumeAfter(t: seq<TaintEvent>, l: seq<Event>, r: PipeRun, q: seq<Stage>, base: nat,
                    v: Json, changed: bool, next: Json, now: bool, run: Runner)
    requires r.outcome.Pass? ==> next == v && now == changed
    ensures Resume(After(t, l, r), q, base, v, changed, run) == After(t, l, Resume(r, q, base, next, now, run))
  {
    if r.outcome.Pass? {
      AfterAfter(t, l, r.taints, r.log, Flow(q, base, v, changed, run));
    } else if r.outcome.Replace? {
      AfterAfter(t, l, r.taints, r.log, Flow(q, base, r.outcome.value, true, run));
    }
  }

  /** A pipeline only passes when nothing so far changed the value. */
  lemma {:induction false} PassKeeps(p: seq<Stage>, base: nat, v: Json, changed: bool, run: Runner)
    requires OrderlyRunner(run) && Flow(p, base, v, changed, run).outcome.Pass?
    ensures !changed
    decreases |p|
  {
    if p != [] {
      var s := run(p[0], v, base);
      assert Orderly(s, v);
      PassKeeps(p[1..], base + 1, s.value, changed || s.changed, run);
    }
  }

  lemma {:induction false} FlowsCompose(p: seq<Stage>, q: seq<Stage>, base: nat, v: Json, changed: bool, run: Runner)
    requires OrderlyRunner(run)
    ensures Flow(p + q, base, v, changed, run) ==
      Resume(Flow(p, base, v, changed, run), q, base + |p|, v, changed, run)
    decreases |p|
  {
    if p == [] {
      assert p + q == q;
    } else {
      assert (p + q)[1..] == p[1..] + q;
      var s := run(p[0], v, base);
      assert Orderly(s, v);
      if s.Go? {
        var now := changed || s.changed;
        var r := Flow(p[1..], base + 1, s.value, now, run);
        FlowsCompose(p[1..], q, base + 1, s.value, now, run);
        if r.outcome.Pass? { PassKeeps(p[1..], base + 1, s.value, now, run); }
        ResumeAfter(s.taints, s.log, r, q, base + |p|, v, changed, s.value, now, run);
      }
    }
  }

  /** Running `p ++ q` is running `q` on what `p` produced: taints and calls concatenate and
      deny indices in `q` count from `|p|`. */
  lemma PipelinesCompose(p: seq<Stage>, q: seq<Stage>, v: Json, c: Site)
    ensures Evaluate(p + q, v, c) == Resume(Evaluate(p, v, c), q, |p|, v, false, At(c))
  {
    FlowsCompose(p, q, 0, v, false, At(c));
  }

  // ----- redaction and masking -----

  predicate PluginFree(stages: seq<Stage>) { forall k :: 0 <= k < |stages| ==> !stages[k].StagePlugin? }

  /** The pipeline ran to its end, or would have gone on. */
  predicate GetsThrough(r: PipeRun) { r.outcome.Pass? || r.outcome.Replace? }

  /** What a plugin-free stage emits when it hands on does not depend on the value. */
  lemma StageBlind(stage: Stage, v1: Json, v2: Json, c: Site, idx: nat)
    requires !stage.StagePlugin? && RunStage(stage, v1, c, idx).Go? && RunStage(stage, v2, c, idx).Go?
    ensures RunStage(stage, v1, c, idx).taints == RunStage(stage, v2, c, idx).taints
    ensures RunStage(stage, v1, c, idx).log == RunStage(stage, v2, c, idx).log == []
  {
  }

  lemma {:induction false} FlowBlind(p: seq<Stage>, base: nat, v1: Json, ch1: bool, v2: Json, ch2: bool, c: Site)
    requires PluginFree(p)
    requires GetsThrough(Flow(p, base, v1, ch1, At(c))) && GetsThrough(Flow(p, base, v2, ch2, At(c)))
    ensures Flow(p, base, v1, ch1, At(c)).taints == Flow(p, base, v2, ch2, At(c)).taints
    ensures Flow(p, base, v1, ch1, At(c)).log == Flow(p, base, v2, ch2, At(c)).log
    decreases |p|
  {
    if p != [] {
      var s1, s2 := At(c)(p[0], v1, base), At(c)(p[0], v2, base);
      StageBlind(p[0], v1, v2, c, base);
      FlowBlind(p[1..], base + 1, s1.value, ch1 || s1.changed, s2.value, ch2 || s2.changed, c);
    }
  }

  predicate Fires(condition: Option<Expression>, c: Site)
  {
    condition.None? || Eval(condition.value, c.bag, c.w.host)
  }

  lemma FlowBecome(stage: Stage, rest: seq<Stage>, base: nat, v: Json, changed: bool, next: Json, run: Runner)
    requires run(stage, v, base) == Become(next)
    ensures Flow([stage] + rest, base, v, changed, run) == Flow(rest, base + 1, next, true, run)
  {
    assert ([stage] + rest)[1..] == rest;
  }

  /** A firing redact forgets the value, so what follows is the same for every input. */
  lemma RedactForgets(condition: Option<Expression>, q: seq<Stage>, base: nat, v1: Json, ch1: bool, v2: Json, ch2: bool,
                      c: Site)
    requires Fires(condition, c)
    ensures Flow([Redact(condition)] + q, base, v1, ch1, At(c)) == Flow([Redact(condition)] + q, base, v2, ch2, At(c))
  {
    FlowBecome(Redact(condition), q, base, v1, ch1, REDACTED, At(c));
    FlowBecome(Redact(condition), q, base, v2, ch2, REDACTED, At(c));
  }

  /** Two inputs that get past the stages before a firing redact are indistinguishable afterwards: same
      outcome, same taints, same calls.  A later plugin stage answers alike only if the plugin knows no
      more of the field than it is handed. */
  lemma RedactHides(p: seq<Stage>, condition: Option<Expression>, q: seq<Stage>, v1: Json, v2: Json, c: Site)
    requires PluginFree(p) && Fires(condition, c)
    requires GetsThrough(Evaluate(p, v1, c)) && GetsThrough(Evaluate(p, v2, c))
    ensures Evaluate(p + ([Redact(condition)] + q), v1, c) == Evaluate(p + ([Redact(condition)] + q), v2, c)
  {
    var rest := [Redact(condition)] + q;
    PipelinesCompose(p, rest, v1, c);
    PipelinesCompose(p, rest, v2, c);
    FlowBlind(p, 0, v1, false, v2, false, c);
    var r1, r2 := Evaluate(p, v1, c), Evaluate(p, v2, c);
    var w1 := if r1.outcome.Replace? then r1.outcome.value else v1;
    var w2 := if r2.outcome.Replace? then r2.outcome.value else v2;
    RedactForgets(condition, q, |p|, w1, r1.outcome.Replace?, w2, r2.outcome.Replace?, c);
  }

  function Min(a: nat, b: nat): nat { if a < b then a else b }

  lemma MaskStringTwice(s: string, n: nat, m: nat)
    ensures MaskString(MaskString(s, n), m) == MaskString(s, Min(m, n))
  {
  }

  /** `mask(n) | mask(m)` is `mask(min(m, n))`, rejections included. */
  lemma MaskTwice(n: nat, m: nat, v: Json, c: Site)
    ensures Evaluate([Mask(n), Mask(m)], v, c) == Evaluate([Mask(Min(m, n))], v, c)
  {
    var two, one := [Mask(n), Mask(m)], [Mask(Min(m, n))];
    if v.Str? {
      MaskStringTwice(v.s, n, m);
      var masked, final := Str(MaskString(v.s, n)), Str(MaskString(v.s, Min(m, n)));
      assert two == [Mask(n)] + ([Mask(m)] + []) && one == [Mask(Min(m, n))] + [];
      FlowBecome(Mask(n), [Mask(m)] + [], 0, v, false, masked, At(c));
      FlowBecome(Mask(m), [], 1, masked, true, final, At(c));
      FlowBecome(Mask(Min(m, n)), [], 0, v, false, final, At(c));
    }
  }
}
