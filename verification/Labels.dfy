/** Security labels under concurrent plugin calls (`CmfPluginInvoker::invoke` in apl-cpex).

    Each call takes a snapshot of the shared labels, runs, and overwrites them with what it
    returns, so the last writer wins; the labels a call added travel a second way, as taints. */
module Labels {
  import opened Text
  import opened Ir

  /** Calls interleave at two points: the snapshot and the write-back. */
  datatype Action =
    | Begin(call: nat)
    | End(call: nat, returned: Option<set<string>>)

  /** The shared labels, the snapshots of the calls under way, and the taints emitted so far. */
  datatype Shared = Shared(labels: set<string>, running: map<nat, set<string>>, emitted: set<string>)

  function Start(labels: set<string>): Shared { Shared(labels, map[], {}) }

  /** A call begins once and ends once; plugins only ever add labels to what they were given. */
  predicate Enabled(s: Shared, a: Action)
  {
    match a
    case Begin(call) => call !in s.running
    case End(call, returned) => call in s.running && (returned.Some? ==> s.running[call] <= returned.value)
  }

  function Step(s: Shared, a: Action): Shared
    requires Enabled(s, a)
  {
    match a
    case Begin(call) => s.(running := s.running[call := s.labels])
    case End(call, None) => s.(running := s.running - {call})
    case End(call, Some(after)) =>
      Shared(after, s.running - {call}, s.emitted + (after - s.running[call]))
  }

  /** Any interleaving the calls allow. */
  predicate Possible(s: Shared, actions: seq<Action>)
    decreases |actions|
  {
    actions == [] || (Enabled(s, actions[0]) && Possible(Step(s, actions[0]), actions[1..]))
  }

  function Finish(s: Shared, actions: seq<Action>): Shared
    requires Possible(s, actions)
    decreases |actions|
  {
    if actions == [] then s else Finish(Step(s, actions[0]), actions[1..])
  }

  // ----- labels are never lost for good -----

  /** Labels that some call of the interleaving added to its snapshot. */
  function Added(s: Shared, actions: seq<Action>): set<string>
    requires Possible(s, actions)
    decreases |actions|
  {
    if actions == [] then {}
    else
      (match actions[0]
       case End(call, Some(after)) => after - s.running[call]
       case _ => {})
      + Added(Step(s, actions[0]), actions[1..])
  }

  /** The initial labels are in the shared set and every snapshot; anything beyond them has been emitted. */
  predicate Sound(s: Shared, initial: set<string>)
  {
    && initial <= s.labels <= initial + s.emitted
    && forall call :: call in s.running ==> initial <= s.running[call] <= initial + s.emitted
  }

  lemma StepSound(s: Shared, a: Action, initial: set<string>)
    requires Sound(s, initial) && Enabled(s, a)
    ensures Sound(Step(s, a), initial)
  {
  }

  lemma {:induction false} RunSound(s: Shared, actions: seq<Action>, initial: set<string>)
    requires Sound(s, initial) && Possible(s, actions)
    ensures Sound(Finish(s, actions), initial)
    ensures Finish(s, actions).emitted == s.emitted + Added(s, actions)
    decreases |actions|
  {
    if actions != [] {
      StepSound(s, actions[0], initial);
      RunSound(Step(s, actions[0]), actions[1..], initial);
    }
  }

  /** `apply_session_taints` on the emitted taints repairs every overwrite: for every interleaving
      the labels are then exactly the initial ones and those some call added. */
  lemma TaintsRepair(initial: set<string>, actions: seq<Action>)
    requires Possible(Start(initial), actions)
    ensures var s := Finish(Start(initial), actions);
      && initial <= s.labels
      && s.labels + s.emitted == initial + Added(Start(initial), actions)
  {
    RunSound(Start(initial), actions, initial);
  }

  /** Two calls from one snapshot, each adding a label: the second to end overwrites the first. */
  function Overwriting(initial: set<string>, a: string, b: string): seq<Action>
  {
    [Begin(0), Begin(1), End(0, Some(initial + {a})), End(1, Some(initial + {b}))]
  }

  /** Without the taints an added label can be lost. */
  lemma OverwriteLoses(initial: set<string>, a: string, b: string)
    requires a !in initial && a != b
    ensures var actions := Overwriting(initial, a, b);
      && Possible(Start(initial), actions)
      && a in Added(Start(initial), actions)
      && a !in Finish(Start(initial), actions).labels
  {
    var s0 := Start(initial);
    var s1 := Step(s0, Begin(0));
    var s2 := Step(s1, Begin(1));
    var s3 := Step(s2, End(0, Some(initial + {a})));
    var s4 := Step(s3, End(1, Some(initial + {b})));
    var actions := Overwriting(initial, a, b);
    assert actions[1..] == [Begin(1), End(0, Some(initial + {a})), End(1, Some(initial + {b}))];
    assert actions[1..][1..] == [End(0, Some(initial + {a})), End(1, Some(initial + {b}))];
    assert actions[1..][1..][1..] == [End(1, Some(initial + {b}))];
    assert actions[1..][1..][1..][1..] == [];
    assert Possible(s3, actions[1..][1..][1..]) && Finish(s3, actions[1..][1..][1..]) == s4;
    assert Possible(s2, actions[1..][1..]) && Finish(s2, actions[1..][1..]) == s4;
    assert a in Added(s2, actions[1..][1..]);
    assert Possible(s1, actions[1..]) && Finish(s1, actions[1..]) == s4;
  }

  // ----- what it takes to lose a label -----

  predicate Writes(a: Action) { a.End? && a.returned.Some? }

  /** The last write-back of the interleaving. */
  predicate LastWrite(actions: seq<Action>, k: nat)
  {
    k < |actions| && Writes(actions[k]) && forall j :: k < j < |actions| ==> !Writes(actions[j])
  }

  /** The last write-back returned without the label. */
  ghost predicate LastDrops(actions: seq<Action>, l: string)
  {
    exists k: nat :: LastWrite(actions, k) && l !in actions[k].returned.value
  }

  /** The labels at the end are those the last write-back returned, or the first ones. */
  lemma {:induction false} LabelsAreLastWrite(s: Shared, actions: seq<Action>)
    requires Possible(s, actions)
    ensures forall k: nat :: LastWrite(actions, k) ==> Finish(s, actions).labels == actions[k].returned.value
    ensures (forall k :: 0 <= k < |actions| ==> !Writes(actions[k])) ==> Finish(s, actions).labels == s.labels
    decreases |actions|
  {
    if actions != [] {
      var rest := actions[1..];
      LabelsAreLastWrite(Step(s, actions[0]), rest);
      assert forall j :: 0 < j < |actions| ==> actions[j] == rest[j - 1];
      forall k: nat | LastWrite(actions, k) ensures Finish(s, actions).labels == actions[k].returned.value {
        if k > 0 {
          assert forall j :: 0 <= j < |rest| ==> rest[j] == actions[j + 1];
          assert LastWrite(rest, k - 1);
        } else {
          assert forall j :: 0 <= j < |rest| ==> rest[j] == actions[j + 1];
        }
      }
    }
  }

  lemma {:induction false} FindLastWrite(actions: seq<Action>, i: nat) returns (k: nat)
    requires i < |actions| && Writes(actions[i])
    ensures LastWrite(actions, k)
    decreases |actions| - i
  {
    if j :| i < j < |actions| && Writes(actions[j]) {
      k := FindLastWrite(actions, j);
    } else {
      k := i;
    }
  }

  lemma {:induction false} AddingWrites(s: Shared, actions: seq<Action>, l: string) returns (i: nat)
    requires Possible(s, actions) && l in Added(s, actions)
    ensures i < |actions| && Writes(actions[i])
    decreases |actions|
  {
    if Writes(actions[0]) {
      i := 0;
    } else {
      var j := AddingWrites(Step(s, actions[0]), actions[1..], l);
      i := j + 1;
    }
  }

  /** An added label is gone in the end exactly when the last write-back returned without it. */
  lemma GoneExactlyWhen(s: Shared, actions: seq<Action>, l: string)
    requires Possible(s, actions) && l in Added(s, actions)
    ensures l !in Finish(s, actions).labels <==> LastDrops(actions, l)
  {
    LabelsAreLastWrite(s, actions);
    var i := AddingWrites(s, actions, l);
    var k := FindLastWrite(actions, i);
  }

  /** A call writes back without the label: one that was already under way, on a snapshot without it. */
  ghost predicate StaleWrite(s: Shared, actions: seq<Action>, k: nat, l: string)
  {
    && k < |actions| && Writes(actions[k]) && l !in actions[k].returned.value
    && actions[k].call in s.running && l !in s.running[actions[k].call]
  }

  lemma {:induction false} LossIsStale(s: Shared, actions: seq<Action>, l: string) returns (k: nat)
    requires Possible(s, actions) && l in s.labels && l !in Finish(s, actions).labels
    ensures StaleWrite(s, actions, k, l)
    decreases |actions|
  {
    if Writes(actions[0]) && l !in actions[0].returned.value {
      k := 0;
    } else {
      var j := LossIsStale(Step(s, actions[0]), actions[1..], l);
      k := j + 1;
      assert actions[k] == actions[1..][j];
    }
  }

  /** Some call added the label while another was under way that wrote back without it later. */
  ghost predicate Overlapped(s: Shared, actions: seq<Action>, l: string)
    requires Possible(s, actions)
    decreases |actions|
  {
    actions != [] &&
    (var t, rest := Step(s, actions[0]), actions[1..];
     || (Writes(actions[0]) && l in actions[0].returned.value - s.running[actions[0].call]
         && exists k :: StaleWrite(t, rest, k, l))
     || Overlapped(t, rest, l))
  }

  /** Losing a label takes two overlapping calls. */
  lemma {:induction false} LossTakesOverlap(s: Shared, actions: seq<Action>, l: string)
    requires Possible(s, actions) && l in Added(s, actions) && l !in Finish(s, actions).labels
    ensures Overlapped(s, actions, l)
    decreases |actions|
  {
    var t, rest := Step(s, actions[0]), actions[1..];
    if Writes(actions[0]) && l in actions[0].returned.value - s.running[actions[0].call] {
      var k := LossIsStale(t, rest, l);
    } else {
      LossTakesOverlap(t, rest, l);
    }
  }

  // ----- one call at a time -----

  /** No call begins while another is under way. */
  predicate Serial(s: Shared, actions: seq<Action>)
    requires Possible(s, actions)
    decreases |actions|
  {
    actions == [] ||
    ((actions[0].Begin? ==> s.running == map[]) && Serial(Step(s, actions[0]), actions[1..]))
  }

  /** Nothing has happened to the labels since any snapshot. */
  predicate Fresh(s: Shared)
  {
    |s.running| <= 1 && forall call :: call in s.running ==> s.running[call] == s.labels
  }

  /** Calls one after another lose nothing even without the taints. */
  lemma {:induction false} SerialLosesNothing(s: Shared, actions: seq<Action>)
    requires Possible(s, actions) && Serial(s, actions) && Fresh(s)
    ensures Finish(s, actions).labels == s.labels + Added(s, actions)
    decreases |actions|
  {
    if actions != [] {
      var t := Step(s, actions[0]);
      if actions[0].End? { EndsAlone(s, actions[0].call); }
      SerialLosesNothing(t, actions[1..]);
    }
  }

  lemma EndsAlone(s: Shared, call: nat)
    requires Fresh(s) && call in s.running
    ensures s.running - {call} == map[]
  {
    forall other | other in s.running ensures other == call {
      if other != call {
        assert {call, other} <= s.running.Keys;
        SubsetSize({call, other}, s.running.Keys);
      }
    }
  }

  lemma SubsetSize<T>(a: set<T>, b: set<T>)
    requires a <= b
    ensures |a| <= |b|
  {
    assert b == a + (b - a);
    assert |a + (b - a)| == |a| + |b - a|;
  }

  // ----- the label operations -----

  function SessionLabels(taints: seq<TaintEvent>): set<string>
  {
    set i | 0 <= i < |taints| && Session in taints[i].scopes :: taints[i].tag
  }

  /** The labels one request carries in its extensions. */
  class RequestLabels {
    var labels: set<string>
    const initial: set<string>

    /** `for_request`: the inbound labels, with those stored for the session added. */
    constructor (inbound: set<string>, stored: seq<string>)
      ensures labels == initial == inbound + set i | 0 <= i < |stored| :: stored[i]
    {
      var all := inbound;
      for i := 0 to |stored|
        invariant all == inbound + set j | 0 <= j < i :: stored[j]
      {
        all := all + {stored[i]};
      }
      labels, initial := all, all;
    }

    /** `apply_session_taints`: only taints with session scope become labels. */
    method ApplySessionTaints(taints: seq<TaintEvent>)
      modifies this
      ensures labels == old(labels) + SessionLabels(taints)
    {
      for i := 0 to |taints|
        invariant labels == old(labels) + SessionLabels(taints[..i])
      {
        assert taints[..i + 1] == taints[..i] + [taints[i]];
        SessionPush(taints[..i], taints[i]);
        if Session in taints[i].scopes { labels := labels + {taints[i].tag}; }
      }
      assert taints[..|taints|] == taints;
    }

    /** What `persist_session` appends: the labels that were not there after hydration. */
    method NewLabels() returns (added: set<string>)
      ensures added == labels - initial
    {
      added := {};
      var rest := labels;
      while rest != {}
        invariant rest <= labels
        invariant added == (labels - rest) - initial
        decreases rest
      {
        var l :| l in rest;
        if l !in initial { added := added + {l}; }
        rest := rest - {l};
      }
    }
  }

  lemma SessionPush(taints: seq<TaintEvent>, t: TaintEvent)
    ensures SessionLabels(taints + [t]) == SessionLabels(taints) + if Session in t.scopes then {t.tag} else {}
  {
    var all := taints + [t];
    assert all[|taints|] == t;
    forall i | 0 <= i < |taints| && Session in taints[i].scopes ensures taints[i].tag in SessionLabels(all) {
      assert all[i] == taints[i];
    }
  }
}
