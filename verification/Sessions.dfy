/** Labels across the requests of a session (`for_request`, `apply_session_taints` and
    `persist_session` in apl-cpex's `cmf_invoker.rs`, `session_store.rs`). */
module Sessions {
  import opened Text
  import opened Ir
  import opened Labels

  // ----- the store -----

  type Store = map<string, set<string>>

  function Stored(store: Store, sid: string): set<string> { if sid in store then store[sid] else {} }

  /** `MemorySessionStore`: append-only sets, an unknown session is empty. */
  class SessionStore {
    var sessions: Store

    constructor ()
      ensures sessions == map[]
    {
      sessions := map[];
    }

    method LoadLabels(sid: string) returns (labels: set<string>)
      ensures labels == Stored(sessions, sid)
    {
      if sid in sessions { return sessions[sid]; }
      return {};
    }

    method AppendLabels(sid: string, labels: set<string>)
      modifies this
      ensures Stored(sessions, sid) == old(Stored(sessions, sid)) + labels
      ensures forall other :: other != sid ==> Stored(sessions, other) == old(Stored(sessions, other))
    {
      var entry, rest := Stored(sessions, sid), labels;
      while rest != {}
        invariant rest <= labels && entry == old(Stored(sessions, sid)) + (labels - rest)
        decreases rest
      {
        var l :| l in rest;
        entry, rest := entry + {l}, rest - {l};
      }
      sessions := sessions[sid := entry];
    }
  }

  // ----- requests, interleaved -----

  datatype Progress = Evaluating | Settled | Persisted

  /** One request: its session if it has one, the labels it came with, the labels right after
      hydration, and the labels its plugin calls share. */
  datatype Request = Request(
    sid: Option<string>,
    inbound: set<string>,
    initial: set<string>,
    shared: Shared,
    taints: seq<TaintEvent>,
    progress: Progress)

  datatype Event =
    | Load(id: nat, sid: Option<string>, inbound: set<string>)
    | Invoke(id: nat, action: Action)
    | Settle(id: nat, taints: seq<TaintEvent>)
    | Persist(id: nat)

  datatype System = System(store: Store, requests: map<nat, Request>)

  /** Calls happen while the request is evaluated; then the taints its route reports are applied,
      whatever they are and whatever became of its calls; then the request persists. */
  predicate Can(s: System, e: Event)
  {
    match e
    case Load(id, _, _) => id !in s.requests
    case Invoke(id, action) =>
      id in s.requests && s.requests[id].progress.Evaluating? && Enabled(s.requests[id].shared, action)
    case Settle(id, _) => id in s.requests && s.requests[id].progress.Evaluating?
    case Persist(id) => id in s.requests && s.requests[id].progress.Settled?
  }

  function Next(s: System, e: Event): System
    requires Can(s, e)
  {
    match e
    case Load(id, sid, inbound) =>
      var labels := inbound + (if sid.Some? then Stored(s.store, sid.value) else {});
      s.(requests := s.requests[id := Request(sid, inbound, labels, Start(labels), [], Evaluating)])
    case Invoke(id, action) =>
      var r := s.requests[id];
      s.(requests := s.requests[id := r.(shared := Labels.Step(r.shared, action))])
    case Settle(id, taints) =>
      var r := s.requests[id];
      var labels := r.shared.labels + SessionLabels(taints);
      s.(requests := s.requests[id := r.(shared := r.shared.(labels := labels), taints := taints, progress := Settled)])
    case Persist(id) =>
      var r := s.requests[id];
      System(if r.sid.None? then s.store else s.store[r.sid.value := Stored(s.store, r.sid.value) + NewIn(r)],
             s.requests[id := r.(progress := Persisted)])
  }

  /** The difference a request persists. */
  function NewIn(r: Request): set<string> { r.shared.labels - r.initial }

  predicate Runs(s: System, es: seq<Event>)
    decreases |es|
  {
    es == [] || (Can(s, es[0]) && Runs(Next(s, es[0]), es[1..]))
  }

  function After(s: System, es: seq<Event>): System
    requires Runs(s, es)
    decreases |es|
  {
    if es == [] then s else After(Next(s, es[0]), es[1..])
  }

  lemma {:induction false} RunsConcat(s: System, xs: seq<Event>, ys: seq<Event>)
    ensures Runs(s, xs + ys) <==> Runs(s, xs) && Runs(After(s, xs), ys)
    ensures Runs(s, xs + ys) ==> After(s, xs + ys) == After(After(s, xs), ys)
    decreases |xs|
  {
    if xs == [] {
      assert xs + ys == ys;
    } else {
      assert (xs + ys)[0] == xs[0] && (xs + ys)[1..] == xs[1..] + ys;
      if Can(s, xs[0]) { RunsConcat(Next(s, xs[0]), xs[1..], ys); }
    }
  }

  // ----- invariants -----

  /** Hydrated labels are the inbound ones and some that were stored; they are still there; after
      settling so are the session taints; and a persisted request has left its new labels in the store. */
  predicate Faithful(r: Request, store: Store)
  {
    && r.inbound <= r.initial
    && r.initial <= r.inbound + (if r.sid.Some? then Stored(store, r.sid.value) else {})
    && r.initial <= r.shared.labels
    && (r.progress.Evaluating? ==> Sound(r.shared, r.initial))
    && (!r.progress.Evaluating? ==> SessionLabels(r.taints) <= r.shared.labels)
    && (r.progress.Persisted? && r.sid.Some? ==> NewIn(r) <= Stored(store, r.sid.value))
  }

  predicate AllFaithful(s: System) { forall id :: id in s.requests ==> Faithful(s.requests[id], s.store) }

  ghost predicate Grows(a: Store, b: Store) { forall sid :: Stored(a, sid) <= Stored(b, sid) }

  lemma NextKeeps(s: System, e: Event)
    requires AllFaithful(s) && Can(s, e)
    ensures AllFaithful(Next(s, e)) && Grows(s.store, Next(s, e).store)
  {
    var t := Next(s, e);
    assert Grows(s.store, t.store);
    if e.Invoke? { StepSound(s.requests[e.id].shared, e.action, s.requests[e.id].initial); }
    forall id | id in t.requests ensures Faithful(t.requests[id], t.store) {
      if id != e.id { assert Faithful(s.requests[id], s.store); }
    }
  }

  lemma {:induction false} RunKeeps(s: System, es: seq<Event>)
    requires AllFaithful(s) && Runs(s, es)
    ensures AllFaithful(After(s, es)) && Grows(s.store, After(s, es).store)
    decreases |es|
  {
    if es != [] {
      NextKeeps(s, es[0]);
      RunKeeps(Next(s, es[0]), es[1..]);
    }
  }

  // ----- what the store holds -----

  /** The labels persisted to `sid` over a run. */
  function PersistedTo(s: System, es: seq<Event>, sid: string): set<string>
    requires Runs(s, es)
    decreases |es|
  {
    if es == [] then {}
    else
      (if es[0].Persist? && s.requests[es[0].id].sid == Some(sid) then NewIn(s.requests[es[0].id]) else {})
      + PersistedTo(Next(s, es[0]), es[1..], sid)
  }

  /** Over every interleaving of requests a session's store only grows, and holds exactly what it
      held before and what its requests persisted. */
  lemma {:induction false} StoreIsUnion(s: System, es: seq<Event>, sid: string)
    requires Runs(s, es)
    ensures Stored(After(s, es).store, sid) == Stored(s.store, sid) + PersistedTo(s, es, sid)
    decreases |es|
  {
    if es != [] { StoreIsUnion(Next(s, es[0]), es[1..], sid); }
  }

  // ----- a session taint reaches later requests -----

  /** When a request persists, a session taint of its route ends up in the store unless the request
      came in with that label and nobody had stored it. */
  lemma TaintIsStored(s: System, id: nat, tag: string)
    requires AllFaithful(s) && id in s.requests && Can(s, Persist(id)) && s.requests[id].sid.Some?
    requires tag in SessionLabels(s.requests[id].taints)
    ensures var r := s.requests[id];
      tag in Stored(Next(s, Persist(id)).store, r.sid.value) <==>
        tag !in r.initial || tag in Stored(s.store, r.sid.value)
    ensures var r := s.requests[id];
      tag !in r.inbound ==> tag in Stored(Next(s, Persist(id)).store, r.sid.value)
  {
    assert Faithful(s.requests[id], s.store);
  }

  /** And then every request of the session that loads afterwards starts with it, whatever other
      requests did in between. */
  lemma TaintReachesLaterRequests(s: System, id: nat, tag: string, between: seq<Event>, later: nat,
                                  inbound: set<string>)
    requires AllFaithful(s) && id in s.requests && Can(s, Persist(id)) && s.requests[id].sid.Some?
    requires tag in SessionLabels(s.requests[id].taints) && tag !in s.requests[id].inbound
    requires var load := Load(later, s.requests[id].sid, inbound); Runs(s, [Persist(id)] + (between + [load]))
    ensures var load := Load(later, s.requests[id].sid, inbound);
      var end := After(s, [Persist(id)] + (between + [load]));
      later in end.requests && tag in end.requests[later].initial && tag in end.requests[later].shared.labels
  {
    var load, sid := Load(later, s.requests[id].sid, inbound), s.requests[id].sid.value;
    var t := Next(s, Persist(id));
    TaintIsStored(s, id, tag);
    NextKeeps(s, Persist(id));
    assert ([Persist(id)] + (between + [load]))[1..] == between + [load];
    RunsConcat(t, between, [load]);
    RunKeeps(t, between);
    var u := After(t, between);
    assert tag in Stored(u.store, sid);
    assert [load][1..] == [];
    assert After(u, [load]) == Next(u, load);
  }

  /** A label the request already came in with is not persisted: if nobody stored it, it is gone. */
  lemma InboundLabelIsNotPersisted(sid: string, tag: string)
    ensures var s := System(map[], map[]);
      var es := [Load(0, Some(sid), {tag}), Settle(0, [TaintEvent(tag, [Session])]), Persist(0)];
      Runs(s, es) && tag !in Stored(After(s, es).store, sid)
  {
    var s := System(map[], map[]);
    var load, settle := Load(0, Some(sid), {tag}), Settle(0, [TaintEvent(tag, [Session])]);
    var s1 := Next(s, load);
    assert s1.requests[0].initial == {tag};
    var s2 := Next(s1, settle);
    var taints := [TaintEvent(tag, [Session])];
    assert SessionLabels(taints) == {tag} by { assert Session in taints[0].scopes; }
    assert s2.requests[0].shared.labels == {tag};
    var s3 := Next(s2, Persist(0));
    var es := [load, settle, Persist(0)];
    assert es[1..] == [settle, Persist(0)] && es[1..][1..] == [Persist(0)] && es[1..][1..][1..] == [];
    assert Runs(s2, [Persist(0)]) && After(s2, [Persist(0)]) == s3;
    assert Runs(s1, es[1..]) && After(s1, es[1..]) == s3;
  }
}
