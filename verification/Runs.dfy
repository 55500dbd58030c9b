/** What a run of effects leaves behind, and how runs combine. */
module Runs {
  import opened Text
  import opened Ir
  import opened World

  /** What effects read and write. */
  datatype State = State(bag: Bag, payload: Payload)

  /** Everything one run did: how it ended, the state it left, what it appended. */
  datatype Run = Run(
    outcome: Outcome,
    st: State,
    taints: seq<TaintEvent>,
    constraints: seq<CandidateConstraint>,
    argsModified: bool,
    resultModified: bool,
    log: seq<Event>)

  function Ended(outcome: Outcome, st: State): Run { Run(outcome, st, [], [], false, false, []) }

  function Done(st: State): Run { Ended(Outcome.Continue, st) }

  function Denying(reason: Reason, source: string, st: State): Run
  {
    Ended(Halt(Denied(Some(reason), source)), st)
  }

  /** `next` starts where `r` left off; it is not reached when `r` halted or suspended. */
  function Then(r: Run, next: Run): Run
  {
    if !r.outcome.Continue? then r
    else Run(next.outcome, next.st, r.taints + next.taints, r.constraints + next.constraints,
             r.argsModified || next.argsModified, r.resultModified || next.resultModified, r.log + next.log)
  }

  function Logged(events: seq<Event>, r: Run): Run { r.(log := events + r.log) }

  // ----- parallel branches -----

  /** What became of one branch: it completed, or it was cancelled after some of its calls. */
  datatype Slot = Completed(run: Run) | Cancelled(partial: seq<Event>)

  /** Some branch the scheduler lets complete has halted. */
  predicate SomeHalt(rs: seq<Run>, pos: Pos, w: World)
  {
    exists i :: 0 <= i < |rs| && !w.cancels(pos, i) && rs[i].outcome.Halt?
  }

  /** The calls a cancelled branch had made.  Its log lists the calls of a parallel block inside it in
      branch order, but they were under way together: any part of the log may be what was made. */
  function Made(log: seq<Event>, n: nat, pos: Pos, i: nat, w: World): seq<Event>
  {
    if log == [] then []
    else (if w.made(pos, i, n) then [log[0]] else []) + Made(log[1..], n + 1, pos, i, w)
  }

  /** Branches are cancelled only once another has halted. */
  function Slots(rs: seq<Run>, pos: Pos, w: World): (slots: seq<Slot>)
    ensures |slots| == |rs|
  {
    var halted := SomeHalt(rs, pos, w);
    seq(|rs|, i requires 0 <= i < |rs| =>
      if halted && w.cancels(pos, i)
      then Cancelled(Made(rs[i].log, 0, pos, i, w))
      else Completed(rs[i]))
  }

  /** Taints and constraints of completed branches in branch order; the first halt by index wins;
      bag, payload and flags of branches are dropped, and so is a suspended branch's bundle. */
  function Merge(slots: seq<Slot>, st: State): Run
  {
    if slots == [] then Done(st)
    else
      var rest := Merge(slots[1..], st);
      match slots[0]
      case Cancelled(partial) => Logged(partial, rest)
      case Completed(r) =>
        Run(if r.outcome.Halt? then r.outcome else rest.outcome, st,
            r.taints + rest.taints, r.constraints + rest.constraints, false, false, r.log + rest.log)
  }

  /** `part` is `log` with some of its events left out. */
  predicate IsPart(part: seq<Event>, log: seq<Event>)
  {
    if part == [] then true
    else log != [] && ((part[0] == log[0] && IsPart(part[1..], log[1..])) || IsPart(part, log[1..]))
  }

  lemma {:induction false} MadeIsPart(log: seq<Event>, n: nat, pos: Pos, i: nat, w: World)
    ensures IsPart(Made(log, n, pos, i, w), log)
    decreases |log|
  {
    if log != [] {
      MadeIsPart(log[1..], n + 1, pos, i, w);
      var rest := Made(log[1..], n + 1, pos, i, w);
      if w.made(pos, i, n) { assert ([log[0]] + rest)[1..] == rest; } else { assert [] + rest == rest; }
    }
  }

  lemma {:induction false} PartIsThere(part: seq<Event>, log: seq<Event>)
    requires IsPart(part, log)
    ensures forall x :: x in part ==> x in log
    decreases |log|
  {
    if part != [] {
      if part[0] == log[0] && IsPart(part[1..], log[1..]) {
        PartIsThere(part[1..], log[1..]);
        assert part == [part[0]] + part[1..];
      } else {
        PartIsThere(part, log[1..]);
      }
    }
  }

  /** What a slot logged is part of what its branch logs. */
  predicate Partial(slot: Slot, r: Run)
  {
    match slot
    case Completed(run) => run == r
    case Cancelled(partial) => IsPart(partial, r.log)
  }

  lemma SlotsArePartial(rs: seq<Run>, pos: Pos, w: World)
    ensures forall i :: 0 <= i < |rs| ==> Partial(Slots(rs, pos, w)[i], rs[i])
  {
    forall i | 0 <= i < |rs| ensures Partial(Slots(rs, pos, w)[i], rs[i]) { MadeIsPart(rs[i].log, 0, pos, i, w); }
  }
}
