/** Combining the constraints of a request (`fold_candidate_constraints` in apl-cpex's
    `candidate_constraint.rs`) and what they mean for a backend (`accepts` in cpex-core's
    `routing.rs`). */
module Folding {
  import opened Text
  import opened Ir
  import opened Constraints
  import opened Orders
  import Globs

  /** The folded constraint the router reads. */
  datatype Extension = Extension(
    allowModels: Option<set<string>>,
    denyModels: set<string>,
    allowRegions: Option<set<string>>,
    allowSites: Option<set<string>>,
    maxCostTiers: set<string>,
    custom: map<string, string>,
    onEmpty: OnEmpty)

  datatype Conflict = Conflict(key: string, existing: string, incoming: string)

  predicate Unrestricting(x: Extension)
  {
    x.allowModels.None? && x.denyModels == {} && x.allowRegions.None? && x.allowSites.None?
    && x.maxCostTiers == {} && x.custom == map[]
  }

  // ----- what constraints mean -----

  type Backend = map<string, string>

  /** The router's own vocabulary: globs over model ids and an order on tiers. */
  datatype Router = Router(glob: (string, string) -> bool, rank: string -> Option<nat>)

  const MODEL := "model"
  const REGION := "region"
  const SITE := "site"
  const COST_TIER := "cost_tier"

  predicate ModelAllowed(allow: Option<set<string>>, b: Backend, router: Router)
  {
    allow.Some? ==> MODEL in b && exists p :: p in allow.value && router.glob(p, b[MODEL])
  }

  predicate ModelNotDenied(deny: set<string>, b: Backend, router: Router)
  {
    MODEL in b ==> forall p :: p in deny ==> !router.glob(p, b[MODEL])
  }

  predicate AmongAllowed(allow: Option<set<string>>, b: Backend, key: string)
  {
    allow.Some? ==> key in b && b[key] in allow.value
  }

  predicate WithinTier(ceiling: string, b: Backend, router: Router)
  {
    COST_TIER in b && router.rank(b[COST_TIER]).Some? && router.rank(ceiling).Some?
    && router.rank(b[COST_TIER]).value <= router.rank(ceiling).value
  }

  predicate Carries(custom: map<string, string>, b: Backend)
  {
    forall k :: k in custom ==> k in b && b[k] == custom[k]
  }

  /** `accepts`, apart from the model allow-list. */
  predicate AcceptsRest(x: Extension, b: Backend, router: Router)
  {
    && ModelNotDenied(x.denyModels, b, router)
    && AmongAllowed(x.allowRegions, b, REGION)
    && AmongAllowed(x.allowSites, b, SITE)
    && (forall t :: t in x.maxCostTiers ==> WithinTier(t, b, router))
    && Carries(x.custom, b)
  }

  predicate Accepts(x: Extension, b: Backend, router: Router)
  {
    ModelAllowed(x.allowModels, b, router) && AcceptsRest(x, b, router)
  }

  /** What one `restrict` asks of a backend. */
  predicate MeetsRest(c: CandidateConstraint, b: Backend, router: Router)
  {
    && ModelNotDenied(c.denyModels, b, router)
    && AmongAllowed(c.allowRegions, b, REGION)
    && AmongAllowed(c.allowSites, b, SITE)
    && (c.maxCostTier.Some? ==> WithinTier(c.maxCostTier.value, b, router))
    && Carries(c.custom, b)
  }

  predicate Meets(c: CandidateConstraint, b: Backend, router: Router)
  {
    ModelAllowed(c.allowModels, b, router) && MeetsRest(c, b, router)
  }

  predicate MeetsAll(cs: seq<CandidateConstraint>, b: Backend, router: Router)
  {
    forall i :: 0 <= i < |cs| ==> Meets(cs[i], b, router)
  }

  // ----- the fold -----

  function Intersect(acc: Option<set<string>>, incoming: Option<set<string>>): Option<set<string>>
  {
    if incoming.None? then acc else if acc.None? then incoming else Some(acc.value * incoming.value)
  }

  function Strictest(a: OnEmpty, b: OnEmpty): OnEmpty
  {
    if a.Fallback? && b.Fallback? then Fallback else DenyRequest
  }

  function Tiers(tier: Option<string>): set<string> { if tier.Some? then {tier.value} else {} }

  function Narrowed(x: Extension, c: CandidateConstraint): Extension
  {
    Extension(Intersect(x.allowModels, c.allowModels), x.denyModels + c.denyModels,
              Intersect(x.allowRegions, c.allowRegions), Intersect(x.allowSites, c.allowSites),
              x.maxCostTiers + Tiers(c.maxCostTier), x.custom + c.custom, Strictest(x.onEmpty, c.onEmpty))
  }

  const OPEN := Extension(None, {}, None, None, {}, map[], Fallback)

  function Folded(cs: seq<CandidateConstraint>): Extension
  {
    if cs == [] then OPEN else Narrowed(Folded(cs[..|cs| - 1]), cs[|cs| - 1])
  }

  /** No label is required to hold two values. */
  predicate Agree(a: map<string, string>, b: map<string, string>)
  {
    forall k :: k in a && k in b ==> a[k] == b[k]
  }

  predicate Compatible(cs: seq<CandidateConstraint>)
  {
    forall i, j :: 0 <= i < |cs| && 0 <= j < |cs| ==> Agree(cs[i].custom, cs[j].custom)
  }

  /** Two constraints really disagree as the conflict says. */
  ghost predicate Genuine(conflict: Conflict, cs: seq<CandidateConstraint>)
  {
    conflict.existing != conflict.incoming &&
    exists i, j :: 0 <= i < |cs| && 0 <= j < |cs|
      && conflict.key in cs[i].custom && cs[i].custom[conflict.key] == conflict.existing
      && conflict.key in cs[j].custom && cs[j].custom[conflict.key] == conflict.incoming
  }

  /** `fold_candidate_constraints`. */
  method Fold(cs: seq<CandidateConstraint>) returns (r: Result<Option<Extension>, Conflict>)
    ensures Compatible(cs) ==> r == Ok(if Unrestricting(Folded(cs)) then None else Some(Folded(cs)))
    ensures !Compatible(cs) ==> r.Err? && Genuine(r.error, cs)
  {
    if cs == [] { return Ok(None); }
    var x := OPEN;
    for i := 0 to |cs|
      invariant x == Folded(cs[..i]) && Compatible(cs[..i])
    {
      assert cs[..i + 1][..i] == cs[..i];
      var c := cs[i];
      var clash, custom := Union(x.custom, c.custom);
      FoldedCustom(cs[..i]);
      if clash.Some? {
        NamesTwo(cs, i, clash.value);
        return Err(clash.value);
      }
      CompatiblePush(cs[..i], c);
      assert cs[..i + 1] == cs[..i] + [c];
      x := Extension(Intersect(x.allowModels, c.allowModels), x.denyModels + c.denyModels,
                     Intersect(x.allowRegions, c.allowRegions), Intersect(x.allowSites, c.allowSites),
                     x.maxCostTiers + Tiers(c.maxCostTier), custom, Strictest(x.onEmpty, c.onEmpty));
    }
    assert cs[..|cs|] == cs;
    return Ok(if Unrestricting(x) then None else Some(x));
  }

  /** Add labels one at a time, in any order, stopping at the first disagreement. */
  method Union(acc: map<string, string>, more: map<string, string>)
    returns (clash: Option<Conflict>, custom: map<string, string>)
    ensures clash.None? <==> Agree(acc, more)
    ensures clash.None? ==> custom == acc + more
    ensures clash.Some? ==> var c := clash.value;
      c.key in acc && c.key in more && c.existing == acc[c.key] && c.incoming == more[c.key] && c.existing != c.incoming
  {
    custom := acc;
    var done: set<string> := {};
    while done != more.Keys
      invariant done <= more.Keys
      invariant forall k :: k in done && k in acc ==> acc[k] == more[k]
      invariant custom == map k | k in acc.Keys + done :: if k in acc then acc[k] else more[k]
      decreases more.Keys - done
    {
      var k :| k in more.Keys && k !in done;
      if k in custom {
        if custom[k] != more[k] { return Some(Conflict(k, custom[k], more[k])), custom; }
      } else {
        custom := custom[k := more[k]];
      }
      done := done + {k};
    }
    return None, custom;
  }

  // ----- what the fold's labels are -----

  /** Each folded label comes from some constraint, and each constraint's label is there. */
  lemma {:induction false} FoldedCustom(cs: seq<CandidateConstraint>)
    requires Compatible(cs)
    ensures forall k :: k in Folded(cs).custom ==>
      exists i :: 0 <= i < |cs| && k in cs[i].custom && cs[i].custom[k] == Folded(cs).custom[k]
    ensures forall i, k :: 0 <= i < |cs| && k in cs[i].custom ==>
      k in Folded(cs).custom && Folded(cs).custom[k] == cs[i].custom[k]
    decreases |cs|
  {
    if cs != [] {
      var front, c := cs[..|cs| - 1], cs[|cs| - 1];
      FoldedCustom(front);
      forall i, k | 0 <= i < |cs| && k in cs[i].custom
        ensures k in Folded(cs).custom && Folded(cs).custom[k] == cs[i].custom[k]
      {
        if i < |cs| - 1 {
          assert front[i] == cs[i];
          assert Agree(cs[i].custom, c.custom);
        }
      }
      forall k | k in Folded(cs).custom
        ensures exists i :: 0 <= i < |cs| && k in cs[i].custom && cs[i].custom[k] == Folded(cs).custom[k]
      {
        if k in c.custom {
          assert cs[|cs| - 1] == c;
        } else {
          assert k in Folded(front).custom;
          var i :| 0 <= i < |front| && k in front[i].custom && front[i].custom[k] == Folded(front).custom[k];
          assert cs[i] == front[i];
        }
      }
    }
  }

  lemma NamesTwo(cs: seq<CandidateConstraint>, i: nat, conflict: Conflict)
    requires i < |cs| && Compatible(cs[..i]) && conflict.existing != conflict.incoming
    requires var x := Folded(cs[..i]);
      && conflict.key in x.custom && x.custom[conflict.key] == conflict.existing
      && conflict.key in cs[i].custom && cs[i].custom[conflict.key] == conflict.incoming
    ensures Genuine(conflict, cs) && !Compatible(cs)
  {
    FoldedCustom(cs[..i]);
    var k := conflict.key;
    var j :| 0 <= j < |cs[..i]| && k in cs[..i][j].custom && cs[..i][j].custom[k] == conflict.existing;
    assert cs[..i][j] == cs[j];
    assert !Agree(cs[j].custom, cs[i].custom);
  }

  lemma CompatiblePush(cs: seq<CandidateConstraint>, c: CandidateConstraint)
    requires Compatible(cs) && Agree(Folded(cs).custom, c.custom)
    ensures Compatible(cs + [c])
  {
    FoldedCustom(cs);
    var all := cs + [c];
    forall i, j | 0 <= i < |all| && 0 <= j < |all| ensures Agree(all[i].custom, all[j].custom) {
      assert i < |cs| ==> all[i] == cs[i];
      assert j < |cs| ==> all[j] == cs[j];
    }
  }

  // ----- the fold means what its inputs mean -----

  lemma IntersectMeans(a: Option<set<string>>, c: Option<set<string>>, b: Backend, key: string)
    ensures AmongAllowed(Intersect(a, c), b, key) <==> AmongAllowed(a, b, key) && AmongAllowed(c, b, key)
  {
  }

  lemma UnionMeans(a: map<string, string>, c: map<string, string>, b: Backend)
    requires Agree(a, c)
    ensures Carries(a + c, b) <==> Carries(a, b) && Carries(c, b)
  {
    if Carries(a + c, b) {
      forall k | k in a ensures k in b && b[k] == a[k] { assert k in a + c; }
      forall k | k in c ensures k in b && b[k] == c[k] { assert k in a + c; }
    }
  }

  /** Everything but the model allow-lists combines exactly. */
  lemma NarrowedMeans(x: Extension, c: CandidateConstraint, b: Backend, router: Router)
    requires Agree(x.custom, c.custom)
    ensures AcceptsRest(Narrowed(x, c), b, router) <==> AcceptsRest(x, b, router) && MeetsRest(c, b, router)
  {
    IntersectMeans(x.allowRegions, c.allowRegions, b, REGION);
    IntersectMeans(x.allowSites, c.allowSites, b, SITE);
    UnionMeans(x.custom, c.custom, b);
    assert ModelNotDenied(x.denyModels + c.denyModels, b, router) <==>
      ModelNotDenied(x.denyModels, b, router) && ModelNotDenied(c.denyModels, b, router);
    var tiers := x.maxCostTiers + Tiers(c.maxCostTier);
    assert c.maxCostTier.Some? ==> c.maxCostTier.value in tiers;
    assert (forall t :: t in tiers ==> WithinTier(t, b, router)) <==>
      (forall t :: t in x.maxCostTiers ==> WithinTier(t, b, router))
      && (c.maxCostTier.Some? ==> WithinTier(c.maxCostTier.value, b, router));
  }

  /** A pattern in the intersection is in both lists. */
  lemma NarrowedAllows(a: Option<set<string>>, c: Option<set<string>>, b: Backend, router: Router)
    ensures ModelAllowed(Intersect(a, c), b, router) ==> ModelAllowed(a, b, router) && ModelAllowed(c, b, router)
  {
  }

  lemma FoldedAgrees(cs: seq<CandidateConstraint>)
    requires cs != [] && Compatible(cs)
    ensures Compatible(cs[..|cs| - 1]) && Agree(Folded(cs[..|cs| - 1]).custom, cs[|cs| - 1].custom)
  {
    var front, c := cs[..|cs| - 1], cs[|cs| - 1];
    FoldedCustom(front);
    forall k | k in Folded(front).custom && k in c.custom ensures Folded(front).custom[k] == c.custom[k] {
      var i :| 0 <= i < |front| && k in front[i].custom && front[i].custom[k] == Folded(front).custom[k];
      assert front[i] == cs[i] && Agree(cs[i].custom, cs[|cs| - 1].custom);
    }
  }

  ghost predicate MeetsAllRest(cs: seq<CandidateConstraint>, b: Backend, router: Router)
  {
    forall i :: 0 <= i < |cs| ==> MeetsRest(cs[i], b, router)
  }

  ghost predicate AllModelsAllowed(cs: seq<CandidateConstraint>, b: Backend, router: Router)
  {
    forall i :: 0 <= i < |cs| ==> ModelAllowed(cs[i].allowModels, b, router)
  }

  /** A backend satisfying the folded constraint satisfies every constraint folded; apart from the
      model allow-lists, exactly those do. */
  lemma {:induction false} FoldedMeans(cs: seq<CandidateConstraint>, b: Backend, router: Router)
    requires Compatible(cs)
    ensures AcceptsRest(Folded(cs), b, router) <==> MeetsAllRest(cs, b, router)
    ensures ModelAllowed(Folded(cs).allowModels, b, router) ==> AllModelsAllowed(cs, b, router)
    decreases |cs|
  {
    if cs != [] {
      var front, c := cs[..|cs| - 1], cs[|cs| - 1];
      FoldedAgrees(cs);
      FoldedMeans(front, b, router);
      NarrowedMeans(Folded(front), c, b, router);
      NarrowedAllows(Folded(front).allowModels, c.allowModels, b, router);
      assert forall i :: 0 <= i < |front| ==> front[i] == cs[i];
    }
  }

  lemma FoldedIsSafe(cs: seq<CandidateConstraint>, b: Backend, router: Router)
    requires Compatible(cs) && Accepts(Folded(cs), b, router)
    ensures MeetsAll(cs, b, router)
  {
    FoldedMeans(cs, b, router);
  }

  // ----- the model allow-lists -----

  predicate SomeAllowList(cs: seq<CandidateConstraint>)
  {
    exists i :: 0 <= i < |cs| && cs[i].allowModels.Some?
  }

  /** The pattern stands in every allow-list. */
  predicate Common(pattern: string, cs: seq<CandidateConstraint>)
  {
    forall i :: 0 <= i < |cs| && cs[i].allowModels.Some? ==> pattern in cs[i].allowModels.value
  }

  /** The folded allow-list holds exactly the patterns common to all the lists. */
  lemma {:induction false} FoldedAllowList(cs: seq<CandidateConstraint>)
    ensures Folded(cs).allowModels.Some? <==> SomeAllowList(cs)
    ensures SomeAllowList(cs) ==> forall p :: p in Folded(cs).allowModels.value <==> Common(p, cs)
    decreases |cs|
  {
    if cs != [] {
      var front, c := cs[..|cs| - 1], cs[|cs| - 1];
      assert cs == front + [c];
      FoldedAllowList(front);
      SomePush(front, c);
      forall p ensures Common(p, cs) <==> Common(p, front) && (c.allowModels.Some? ==> p in c.allowModels.value) {
        CommonPush(p, front, c);
      }
      if !SomeAllowList(front) { forall p ensures Common(p, front) { NoListAllCommon(p, front); } }
    }
  }

  lemma SomePush(front: seq<CandidateConstraint>, c: CandidateConstraint)
    ensures SomeAllowList(front + [c]) <==> SomeAllowList(front) || c.allowModels.Some?
  {
    var cs := front + [c];
    assert cs[|front|] == c;
    if SomeAllowList(front) {
      var i :| 0 <= i < |front| && front[i].allowModels.Some?;
      assert cs[i].allowModels.Some?;
    }
  }

  lemma CommonPush(p: string, front: seq<CandidateConstraint>, c: CandidateConstraint)
    ensures Common(p, front + [c]) <==> Common(p, front) && (c.allowModels.Some? ==> p in c.allowModels.value)
  {
    var cs := front + [c];
    assert cs[|front|] == c;
    assert forall i :: 0 <= i < |front| ==> cs[i] == front[i];
  }

  lemma NoListAllCommon(p: string, cs: seq<CandidateConstraint>)
    requires !SomeAllowList(cs)
    ensures Common(p, cs)
  {
  }

  /** Some pattern common to all the lists matches the backend's model. */
  ghost predicate CommonlyAllowed(cs: seq<CandidateConstraint>, b: Backend, router: Router)
  {
    SomeAllowList(cs) ==> MODEL in b && exists p :: Common(p, cs) && router.glob(p, b[MODEL])
  }

  /** The fold accepts a backend exactly when it meets every constraint and, if any of them lists
      models, one and the same pattern of all the lists matches it. */
  lemma FoldedExactlyWhen(cs: seq<CandidateConstraint>, b: Backend, router: Router)
    requires Compatible(cs)
    ensures Accepts(Folded(cs), b, router) <==> MeetsAll(cs, b, router) && CommonlyAllowed(cs, b, router)
  {
    FoldedMeans(cs, b, router);
    FoldedAllowList(cs);
    assert ModelAllowed(Folded(cs).allowModels, b, router) <==> CommonlyAllowed(cs, b, router);
    assert MeetsAll(cs, b, router) <==> MeetsAllRest(cs, b, router) && AllModelsAllowed(cs, b, router);
  }

  ghost predicate OwnMatcher(router: Router) { forall p, t :: router.glob(p, t) == Globs.Glob(p, t) }

  predicate PlainList(allow: Option<set<string>>) { allow.Some? ==> forall p :: p in allow.value ==> '*' !in p }

  lemma PlainAllowed(allow: set<string>, b: Backend, router: Router)
    requires OwnMatcher(router) && PlainList(Some(allow)) && ModelAllowed(Some(allow), b, router)
    ensures MODEL in b && b[MODEL] in allow && router.glob(b[MODEL], b[MODEL])
  {
    var p :| p in allow && router.glob(p, b[MODEL]);
    Globs.PlainPatternIsEquality(p, b[MODEL]);
  }

  /** With the router's own matcher and ids without a `*` that is meeting every constraint. */
  lemma PlainIdsFoldExactly(cs: seq<CandidateConstraint>, b: Backend, router: Router)
    requires Compatible(cs) && OwnMatcher(router)
    requires forall i :: 0 <= i < |cs| ==> PlainList(cs[i].allowModels)
    ensures Accepts(Folded(cs), b, router) <==> MeetsAll(cs, b, router)
  {
    FoldedExactlyWhen(cs, b, router);
    if MeetsAll(cs, b, router) && SomeAllowList(cs) {
      forall i | 0 <= i < |cs| && cs[i].allowModels.Some?
        ensures MODEL in b && b[MODEL] in cs[i].allowModels.value && router.glob(b[MODEL], b[MODEL])
      {
        assert Meets(cs[i], b, router);
        PlainAllowed(cs[i].allowModels.value, b, router);
      }
      assert Common(b[MODEL], cs);
    }
  }

  /** With globs it is less: a backend allowed by both lists can be lost with their intersection. */
  lemma GlobListsLoseBackends(p: string, q: string, b: Backend, router: Router)
    requires p != q && MODEL in b && router.glob(p, b[MODEL]) && router.glob(q, b[MODEL])
    ensures var c1, c2 := Only(p), Only(q);
      MeetsAll([c1, c2], b, router) && Compatible([c1, c2]) && !Accepts(Folded([c1, c2]), b, router)
  {
    var c1, c2 := Only(p), Only(q);
    assert [c1, c2][..1] == [c1] && [c1][..0] == [];
    assert Folded([c1]) == Narrowed(OPEN, c1);
    assert Folded([c1, c2]) == Narrowed(Folded([c1]), c2);
    assert Folded([c1, c2]).allowModels == Some({p} * {q});
  }

  function Only(pattern: string): CandidateConstraint
  {
    CandidateConstraint(Some({pattern}), {}, None, None, None, map[], DenyRequest)
  }

  /** A conflict means that no backend satisfies all the constraints. */
  lemma ConflictIsHopeless(cs: seq<CandidateConstraint>, b: Backend, router: Router)
    requires !Compatible(cs)
    ensures !MeetsAll(cs, b, router)
  {
    var i, j :| 0 <= i < |cs| && 0 <= j < |cs| && !Agree(cs[i].custom, cs[j].custom);
    assert !(Carries(cs[i].custom, b) && Carries(cs[j].custom, b));
    assert !(Meets(cs[i], b, router) && Meets(cs[j], b, router));
  }

  /** Nothing is emitted exactly when nothing is restricted, and then every backend will do. */
  lemma {:induction false} NothingToEmit(cs: seq<CandidateConstraint>)
    ensures Unrestricting(Folded(cs)) <==> forall i :: 0 <= i < |cs| ==> IsEmpty(cs[i])
    decreases |cs|
  {
    if cs != [] {
      var front, c := cs[..|cs| - 1], cs[|cs| - 1];
      NothingToEmit(front);
      assert forall i :: 0 <= i < |front| ==> front[i] == cs[i];
      var x := Folded(front);
      assert x.denyModels + c.denyModels == {} <==> x.denyModels == {} && c.denyModels == {};
      assert x.maxCostTiers + Tiers(c.maxCostTier) == {} <==> x.maxCostTiers == {} && c.maxCostTier.None? by {
        if c.maxCostTier.Some? { assert c.maxCostTier.value in x.maxCostTiers + Tiers(c.maxCostTier); }
      }
      EmptyUnion(x.custom, c.custom);
    }
  }

  lemma EmptyUnion(a: map<string, string>, c: map<string, string>)
    ensures a + c == map[] <==> a == map[] && c == map[]
  {
    if a + c == map[] {
      forall k ensures k !in a && k !in c { assert k !in a + c; }
    }
  }

  // ----- order and growth -----

  lemma NarrowedSwap(x: Extension, c: CandidateConstraint, d: CandidateConstraint)
    requires Agree(c.custom, d.custom)
    ensures Narrowed(Narrowed(x, c), d) == Narrowed(Narrowed(x, d), c)
  {
    assert x.custom + c.custom + d.custom == x.custom + d.custom + c.custom;
    IntersectSwap(x.allowModels, c.allowModels, d.allowModels);
    IntersectSwap(x.allowRegions, c.allowRegions, d.allowRegions);
    IntersectSwap(x.allowSites, c.allowSites, d.allowSites);
  }

  lemma IntersectSwap(a: Option<set<string>>, c: Option<set<string>>, d: Option<set<string>>)
    ensures Intersect(Intersect(a, c), d) == Intersect(Intersect(a, d), c)
  {
    if c.Some? && d.Some? {
      if a.Some? {
        assert a.value * c.value * d.value == a.value * d.value * c.value;
      } else {
        assert c.value * d.value == d.value * c.value;
      }
    }
  }

  lemma {:induction false} FoldedMoved(front: seq<CandidateConstraint>, c: CandidateConstraint,
                                       back: seq<CandidateConstraint>)
    requires forall i :: 0 <= i < |back| ==> Agree(c.custom, back[i].custom)
    ensures Folded(front + ([c] + back)) == Narrowed(Folded(front + back), c)
    decreases |back|
  {
    var all := front + ([c] + back);
    if back == [] {
      assert all[..|all| - 1] == front && front + back == front;
    } else {
      var most, last := back[..|back| - 1], back[|back| - 1];
      assert all[..|all| - 1] == front + ([c] + most);
      assert (front + back)[..|front + back| - 1] == front + most;
      FoldedMoved(front, c, most);
      NarrowedSwap(Folded(front + most), c, last);
    }
  }

  lemma CompatiblePermuted(xs: seq<CandidateConstraint>, ys: seq<CandidateConstraint>)
    requires multiset(xs) == multiset(ys) && Compatible(xs)
    ensures Compatible(ys)
  {
    forall i, j | 0 <= i < |ys| && 0 <= j < |ys| ensures Agree(ys[i].custom, ys[j].custom) {
      assert ys[i] in multiset(xs) && ys[j] in multiset(xs);
      var k, l :| 0 <= k < |xs| && xs[k] == ys[i] && 0 <= l < |xs| && xs[l] == ys[j];
    }
  }

  lemma Pulled(front: seq<CandidateConstraint>, c: CandidateConstraint, back: seq<CandidateConstraint>)
    requires Compatible(front + ([c] + back))
    ensures Folded(front + ([c] + back)) == Narrowed(Folded(front + back), c)
  {
    var all := front + ([c] + back);
    forall i | 0 <= i < |back| ensures Agree(c.custom, back[i].custom) {
      assert all[|front|] == c && all[|front| + 1 + i] == back[i];
    }
    FoldedMoved(front, c, back);
  }

  /** The order in which constraints arrive does not matter: every order folds to the same
      extension, or every order is in conflict. */
  lemma {:induction false} FoldedPermuted(xs: seq<CandidateConstraint>, ys: seq<CandidateConstraint>)
    requires multiset(xs) == multiset(ys) && Compatible(xs)
    ensures Compatible(ys) && Folded(xs) == Folded(ys)
    decreases |xs|
  {
    CompatiblePermuted(xs, ys);
    if xs == [] {
      NoneLeft(xs, ys);
    } else {
      var front, back := Find(xs, ys);
      var c, rest := xs[0], xs[1..];
      assert [] + ([c] + rest) == xs && [] + rest == rest;
      Pulled([], c, rest);
      Pulled(front, c, back);
      CompatibleTail(xs);
      FoldedPermuted(rest, front + back);
    }
  }

  lemma CompatibleTail(cs: seq<CandidateConstraint>)
    requires cs != [] && Compatible(cs)
    ensures Compatible(cs[1..])
  {
  }

  /** Adding a constraint only shrinks what is accepted. */
  lemma AddingShrinks(cs: seq<CandidateConstraint>, c: CandidateConstraint, b: Backend, router: Router)
    requires Compatible(cs + [c]) && Accepts(Folded(cs + [c]), b, router)
    ensures Compatible(cs) && Accepts(Folded(cs), b, router)
  {
    assert (cs + [c])[..|cs + [c]| - 1] == cs;
    FoldedAgrees(cs + [c]);
    NarrowedMeans(Folded(cs), c, b, router);
    NarrowedAllows(Folded(cs).allowModels, c.allowModels, b, router);
  }
}
