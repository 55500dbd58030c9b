/** `run_branches` (`cpex-orchestration`): tasks finish in any order, are joined as they finish,
    and the first joined deny cancels what is still running.  The machine below takes one such
    event per step; its complete runs are exactly the slot assignments of `Runs.Slots`. */
module Orchestration {
  import opened World
  import opened Runs

  datatype Task = Running | Finished | Joined | Gone

  /** The join set, and whether `abort_all` was called. */
  datatype JoinSet = JoinSet(tasks: seq<Task>, aborted: bool)

  predicate Init(s: JoinSet, n: nat)
  {
    |s.tasks| == n && !s.aborted && forall i :: 0 <= i < n ==> s.tasks[i] == Running
  }

  /** One event; `rs[i]` is what branch `i` returns if it completes. */
  predicate Step(s: JoinSet, t: JoinSet, rs: seq<Run>, i: nat)
  {
    && i < |s.tasks| == |rs|
    && match s.tasks[i]
       case Running =>
         || t == s.(tasks := s.tasks[i := Finished])
         || (s.aborted && t == s.(tasks := s.tasks[i := Gone]))
       case Finished =>
         t == JoinSet(s.tasks[i := Joined], s.aborted || rs[i].outcome.Halt?)
       case _ => false
  }

  predicate Over(s: JoinSet) { forall i :: 0 <= i < |s.tasks| ==> s.tasks[i] == Joined || s.tasks[i] == Gone }

  /** A run of the machine from `s` to `t`, as the branches its events concern. */
  ghost predicate Leads(s: JoinSet, t: JoinSet, rs: seq<Run>, events: seq<nat>)
    decreases |events|
  {
    if events == [] then s == t
    else exists u :: Step(s, u, rs, events[0]) && Leads(u, t, rs, events[1..])
  }

  // ----- every run is legal -----

  /** `abort_all` is only called after joining a deny, and only then is a task cancelled. */
  predicate Inv(s: JoinSet, rs: seq<Run>)
  {
    && |s.tasks| == |rs|
    && (s.aborted ==> exists j :: 0 <= j < |rs| && s.tasks[j] == Joined && rs[j].outcome.Halt?)
    && (forall i :: 0 <= i < |rs| && s.tasks[i] == Gone ==> s.aborted)
    && (forall i :: 0 <= i < |rs| && s.tasks[i] == Joined && rs[i].outcome.Halt? ==> s.aborted)
  }

  lemma StepKeepsInv(s: JoinSet, t: JoinSet, rs: seq<Run>, i: nat)
    requires Inv(s, rs) && Step(s, t, rs, i)
    ensures Inv(t, rs)
  {
    if s.aborted {
      var j :| 0 <= j < |rs| && s.tasks[j] == Joined && rs[j].outcome.Halt?;
      assert t.tasks[j] == Joined;
    } else if t.aborted {
      assert t.tasks[i] == Joined;
    }
  }

  lemma {:induction false} RunsKeepInv(s: JoinSet, t: JoinSet, rs: seq<Run>, events: seq<nat>)
    requires Inv(s, rs) && Leads(s, t, rs, events)
    ensures Inv(t, rs)
    decreases |events|
  {
    if events != [] {
      var u :| Step(s, u, rs, events[0]) && Leads(u, t, rs, events[1..]);
      StepKeepsInv(s, u, rs, events[0]);
      RunsKeepInv(u, t, rs, events[1..]);
    }
  }

  /** The slots of a world whose schedule cancels exactly the tasks that are gone. */
  predicate SameSlots(s: JoinSet, slots: seq<Slot>)
  {
    |slots| == |s.tasks| && forall i :: 0 <= i < |slots| ==> (slots[i].Completed? <==> s.tasks[i] == Joined)
  }

  ghost predicate CancelsGone(w: World, pos: Pos, s: JoinSet)
  {
    forall i: nat :: i < |s.tasks| ==> (w.cancels(pos, i) <==> s.tasks[i] == Gone)
  }

  /** Every complete run gives the slots of the world that schedules it. */
  lemma RunsGiveSlots(s: JoinSet, t: JoinSet, rs: seq<Run>, events: seq<nat>, pos: Pos, w: World)
    requires Init(s, |rs|) && Leads(s, t, rs, events) && Over(t) && CancelsGone(w, pos, t)
    ensures SameSlots(t, Slots(rs, pos, w))
  {
    RunsKeepInv(s, t, rs, events);
    if i: nat :| i < |rs| && t.tasks[i] == Gone {
      var j :| 0 <= j < |rs| && t.tasks[j] == Joined && rs[j].outcome.Halt?;
      assert SomeHalt(rs, pos, w);
    }
  }

  // ----- every slot assignment is some run -----

  lemma {:induction false} LeadsConcat(s: JoinSet, t: JoinSet, u: JoinSet, rs: seq<Run>, a: seq<nat>, b: seq<nat>)
    requires Leads(s, t, rs, a) && Leads(t, u, rs, b)
    ensures Leads(s, u, rs, a + b)
    decreases |a|
  {
    if a == [] {
      assert a + b == b;
    } else {
      var m :| Step(s, m, rs, a[0]) && Leads(m, t, rs, a[1..]);
      LeadsConcat(m, t, u, rs, a[1..], b);
      assert (a + b)[1..] == a[1..] + b;
    }
  }

  lemma StepLeads(s: JoinSet, t: JoinSet, rs: seq<Run>, i: nat)
    requires Step(s, t, rs, i)
    ensures Leads(s, t, rs, [i])
  {
    assert Leads(t, t, rs, [i][1..]);
  }

  /** A running task finishes and is joined. */
  lemma Complete(s: JoinSet, rs: seq<Run>, i: nat) returns (t: JoinSet)
    requires i < |s.tasks| == |rs| && s.tasks[i] == Running
    ensures t == JoinSet(s.tasks[i := Joined], s.aborted || rs[i].outcome.Halt?)
    ensures Leads(s, t, rs, [i, i])
  {
    var m := s.(tasks := s.tasks[i := Finished]);
    t := JoinSet(m.tasks[i := Joined], m.aborted || rs[i].outcome.Halt?);
    assert t.tasks == s.tasks[i := Joined];
    StepLeads(s, m, rs, i);
    StepLeads(m, t, rs, i);
    LeadsConcat(s, m, t, rs, [i], [i]);
    assert [i] + [i] == [i, i];
  }

  /** Complete or cancel the tasks from `k` on, as `cancelled` says. */
  lemma {:induction false} Settle(s: JoinSet, rs: seq<Run>, cancelled: seq<bool>, k: nat)
    returns (t: JoinSet, events: seq<nat>)
    requires |s.tasks| == |rs| == |cancelled| && k <= |rs|
    requires forall i :: k <= i < |rs| ==> s.tasks[i] == Joined || s.tasks[i] == Running
    requires forall i :: k <= i < |rs| && s.tasks[i] == Joined ==> !cancelled[i]
    requires (forall i :: k <= i < |rs| ==> !cancelled[i]) || s.aborted
    ensures Leads(s, t, rs, events) && |t.tasks| == |rs|
    ensures forall i :: k <= i < |rs| ==> t.tasks[i] == if cancelled[i] then Gone else Joined
    ensures forall i :: 0 <= i < k ==> t.tasks[i] == s.tasks[i]
    decreases |rs| - k
  {
    if k == |rs| {
      t, events := s, [];
    } else if s.tasks[k] == Joined {
      t, events := Settle(s, rs, cancelled, k + 1);
    } else if cancelled[k] {
      var m := s.(tasks := s.tasks[k := Gone]);
      StepLeads(s, m, rs, k);
      t, events := Settle(m, rs, cancelled, k + 1);
      LeadsConcat(s, m, t, rs, [k], events);
      events := [k] + events;
    } else {
      var m := Complete(s, rs, k);
      t, events := Settle(m, rs, cancelled, k + 1);
      LeadsConcat(s, m, t, rs, [k, k], events);
      events := [k, k] + events;
    }
  }

  /** Every world's slots are those of some complete run. */
  lemma SlotsComeFromRuns(rs: seq<Run>, pos: Pos, w: World) returns (s: JoinSet, t: JoinSet, events: seq<nat>)
    ensures Init(s, |rs|) && Leads(s, t, rs, events) && Over(t)
    ensures SameSlots(t, Slots(rs, pos, w))
  {
    var slots := Slots(rs, pos, w);
    s := JoinSet(seq(|rs|, i => Running), false);
    var cancelled := seq(|rs|, i requires 0 <= i < |rs| => slots[i].Cancelled?);
    if SomeHalt(rs, pos, w) {
      var j: nat :| j < |rs| && !w.cancels(pos, j) && rs[j].outcome.Halt?;
      var m := Complete(s, rs, j);
      var more: seq<nat>;
      t, more := Settle(m, rs, cancelled, 0);
      LeadsConcat(s, m, t, rs, [j, j], more);
      events := [j, j] + more;
    } else {
      t, events := Settle(s, rs, cancelled, 0);
    }
  }
}
