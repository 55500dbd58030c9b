/** Merging attribute documents (`attribute_source.rs` in apl-cpex): a partial least upper bound. */
module AttributeMerge {
  import opened Text
  import opened Json

  /** `a` is part of `b`: objects key by key, everything else equal. */
  predicate Below(a: Json, b: Json)
    decreases a
  {
    if a.Obj? && b.Obj? then forall k :: k in a.fields ==> k in b.fields && Below(a.fields[k], b.fields[k])
    else a == b
  }

  /** No path holds two different values. */
  predicate Compatible(a: Json, b: Json)
    decreases a
  {
    if a.Obj? && b.Obj? then forall k :: k in a.fields && k in b.fields ==> Compatible(a.fields[k], b.fields[k])
    else a == b
  }

  function Join(a: Json, b: Json): Json
    requires Compatible(a, b)
    decreases a
  {
    if a.Obj? && b.Obj? then
      Obj(map k | k in a.fields.Keys + b.fields.Keys ::
        if k !in b.fields then a.fields[k]
        else if k !in a.fields then b.fields[k]
        else Join(a.fields[k], b.fields[k]))
    else a
  }

  // ----- the order -----

  lemma {:induction false} BelowReflexive(a: Json)
    ensures Below(a, a)
    decreases a
  {
    if a.Obj? {
      forall k | k in a.fields ensures Below(a.fields[k], a.fields[k]) { BelowReflexive(a.fields[k]); }
    }
  }

  lemma {:induction false} BelowTransitive(a: Json, b: Json, c: Json)
    requires Below(a, b) && Below(b, c)
    ensures Below(a, c)
    decreases a
  {
    if a.Obj? && b.Obj? && c.Obj? {
      forall k | k in a.fields ensures k in c.fields && Below(a.fields[k], c.fields[k]) {
        BelowTransitive(a.fields[k], b.fields[k], c.fields[k]);
      }
    }
  }

  lemma {:induction false} BelowAntisymmetric(a: Json, b: Json)
    requires Below(a, b) && Below(b, a)
    ensures a == b
    decreases a
  {
    if a.Obj? && b.Obj? {
      forall k | k in a.fields ensures k in b.fields && a.fields[k] == b.fields[k] {
        BelowAntisymmetric(a.fields[k], b.fields[k]);
      }
      assert a.fields == b.fields;
    }
  }

  // ----- the join is the least upper bound, and exists exactly when there is one -----

  lemma {:induction false} JoinIsUpper(a: Json, b: Json)
    requires Compatible(a, b)
    ensures Below(a, Join(a, b)) && Below(b, Join(a, b))
    decreases a
  {
    if a.Obj? && b.Obj? {
      var j := Join(a, b);
      forall k | k in a.fields ensures Below(a.fields[k], j.fields[k]) {
        if k in b.fields { JoinIsUpper(a.fields[k], b.fields[k]); } else { BelowReflexive(a.fields[k]); }
      }
      forall k | k in b.fields ensures Below(b.fields[k], j.fields[k]) {
        if k in a.fields { JoinIsUpper(a.fields[k], b.fields[k]); } else { BelowReflexive(b.fields[k]); }
      }
    }
  }

  lemma {:induction false} BoundedIsCompatible(a: Json, b: Json, c: Json)
    requires Below(a, c) && Below(b, c)
    ensures Compatible(a, b) && Below(Join(a, b), c)
    decreases a
  {
    if a.Obj? && b.Obj? {
      forall k | k in a.fields && k in b.fields ensures Compatible(a.fields[k], b.fields[k]) {
        BoundedIsCompatible(a.fields[k], b.fields[k], c.fields[k]);
      }
      var j := Join(a, b);
      forall k | k in j.fields ensures k in c.fields && Below(j.fields[k], c.fields[k]) {
        if k in a.fields && k in b.fields { BoundedIsCompatible(a.fields[k], b.fields[k], c.fields[k]); }
      }
    }
  }

  /** Three documents that agree two by two agree together. */
  lemma {:induction false} PairwiseSuffices(a: Json, b: Json, c: Json)
    requires Compatible(a, b) && Compatible(a, c) && Compatible(b, c)
    ensures Compatible(Join(a, b), c)
    decreases a
  {
    if a.Obj? && b.Obj? && c.Obj? {
      var j := Join(a, b);
      forall k | k in j.fields && k in c.fields ensures Compatible(j.fields[k], c.fields[k]) {
        if k in a.fields && k in b.fields { PairwiseSuffices(a.fields[k], b.fields[k], c.fields[k]); }
      }
    }
  }

  // ----- paths -----

  /** The join has exactly the paths of the two, and a value that is no object is kept as it is. */
  lemma {:induction false} JoinPaths(a: Json, b: Json, p: Path)
    requires Compatible(a, b)
    ensures Get(Join(a, b), p).Some? <==> Get(a, p).Some? || Get(b, p).Some?
    ensures Get(a, p).Some? && !Get(a, p).value.Obj? ==> Get(Join(a, b), p) == Get(a, p)
    ensures Get(b, p).Some? && !Get(b, p).value.Obj? ==> Get(Join(a, b), p) == Get(b, p)
    decreases |p|
  {
    if a.Obj? && b.Obj? && p != [] && p[0] in a.fields && p[0] in b.fields {
      JoinPaths(a.fields[p[0]], b.fields[p[0]], p[1..]);
    }
  }

  // ----- merge_object -----

  /** Two objects meet at `p` with different values of which not both are objects. */
  predicate ClashesAt(a: Json, b: Json, p: Path)
  {
    Get(a, p).Some? && Get(b, p).Some?
    && !(Get(a, p).value.Obj? && Get(b, p).value.Obj?) && Get(a, p) != Get(b, p)
  }

  lemma {:induction false} ClashIsIncompatible(a: Json, b: Json, p: Path)
    requires ClashesAt(a, b, p)
    ensures !Compatible(a, b)
    decreases |p|
  {
    if p != [] { ClashIsIncompatible(a.fields[p[0]], b.fields[p[0]], p[1..]); }
  }

  /** Keys of `b` in any order, into `a`. */
  method MergeObject(a: Json, b: Json) returns (merged: Json, clash: Option<Path>)
    requires a.Obj? && b.Obj?
    ensures clash.None? <==> Compatible(a, b)
    ensures clash.None? ==> merged == Join(a, b)
    ensures clash.Some? ==> clash.value != [] && ClashesAt(a, b, clash.value)
    decreases b
  {
    var acc, done := a.fields, {};
    while done != b.fields.Keys
      invariant done <= b.fields.Keys
      invariant forall k :: k in done && k in a.fields ==> Compatible(a.fields[k], b.fields[k])
      invariant acc.Keys == a.fields.Keys + done
      invariant forall k :: k in acc ==>
        acc[k] == (if k !in done then a.fields[k] else if k !in a.fields then b.fields[k]
                   else Join(a.fields[k], b.fields[k]))
      decreases b.fields.Keys - done
    {
      var k :| k in b.fields.Keys && k !in done;
      var v := b.fields[k];
      if k !in acc {
        acc := acc[k := v];
      } else if acc[k].Obj? && v.Obj? {
        var child, below := MergeObject(acc[k], v);
        if below.Some? {
          assert ([k] + below.value)[1..] == below.value;
          ClashIsIncompatible(a, b, [k] + below.value);
          return a, Some([k] + below.value);
        }
        acc := acc[k := child];
      } else if acc[k] != v {
        assert [k][1..] == [];
        assert ClashesAt(a, b, [k]);
        ClashIsIncompatible(a, b, [k]);
        return a, Some([k]);
      }
      done := done + {k};
    }
    assert Join(a, b).fields == acc;
    return Obj(acc), None;
  }

  // ----- merge_attribute_docs -----

  const DATA := "data"

  /** Everything lives under a top-level `data:` mapping; an empty file or mapping is fine. */
  function Extract(doc: Json): Option<Json>
  {
    match doc
    case Null => Some(Obj(map[]))
    case Obj(fields) =>
      if fields.Keys - {DATA} != {} then None
      else if DATA !in fields || fields[DATA].Null? then Some(Obj(map[]))
      else if fields[DATA].Obj? then Some(fields[DATA])
      else None
    case _ => None
  }

  predicate WellFormed(docs: seq<Json>) { forall i :: 0 <= i < |docs| ==> Extract(docs[i]).Some? }

  function Data(docs: seq<Json>): (data: seq<Json>)
    requires WellFormed(docs)
    ensures |data| == |docs| && forall i :: 0 <= i < |docs| ==> data[i] == Extract(docs[i]).value && data[i].Obj?
  {
    seq(|docs|, i requires 0 <= i < |docs| => Extract(docs[i]).value)
  }

  predicate Consistent(data: seq<Json>)
  {
    forall i, j :: 0 <= i < |data| && 0 <= j < |data| ==> Compatible(data[i], data[j])
  }

  predicate AllObjects(data: seq<Json>) { forall i :: 0 <= i < |data| ==> data[i].Obj? }

  /** `u` is above every document. */
  ghost predicate Bounds(u: Json, data: seq<Json>)
  {
    forall i :: 0 <= i < |data| ==> Below(data[i], u)
  }

  /** `u` is the least tree above every document. */
  ghost predicate Least(u: Json, data: seq<Json>)
  {
    u.Obj? && Bounds(u, data) && forall c: Json :: c.Obj? && Bounds(c, data) ==> Below(u, c)
  }

  datatype LoadError = Malformed | Clash(path: Path)

  /** Documents merge exactly when they are well-formed and pairwise compatible, to their least upper
      bound. */
  ghost predicate Merged(docs: seq<Json>, tree: Option<Json>)
  {
    && (tree.Some? <==> WellFormed(docs) && Consistent(Data(docs)))
    && (tree.Some? ==> Least(tree.value, Data(docs)))
  }

  /** Two documents really hold different values at the path. */
  ghost predicate Disagree(docs: seq<Json>, path: Path)
  {
    exists i, j :: 0 <= i < j < |docs| && Extract(docs[i]).Some? && Extract(docs[j]).Some?
      && ClashesAt(Extract(docs[i]).value, Extract(docs[j]).value, path)
  }

  /** `merge_attribute_docs`. */
  method MergeDocs(docs: seq<Json>) returns (r: Result<Json, LoadError>)
    ensures Merged(docs, if r.Ok? then Some(r.value) else None)
    ensures r.Err? && r.error.Clash? ==> Disagree(docs, r.error.path)
  {
    var acc := Obj(map[]);
    for i := 0 to |docs|
      invariant WellFormed(docs[..i]) && acc.Obj? && Least(acc, Data(docs[..i]))
      invariant Consistent(Data(docs[..i]))
    {
      var data := Extract(docs[i]);
      if data.None? { return Err(Malformed); }
      ghost var before := Data(docs[..i]);
      assert docs[..i + 1] == docs[..i] + [docs[i]];
      assert Data(docs[..i + 1]) == before + [data.value];
      LeastIsJudge(acc, before, data.value);
      var merged, clash := MergeObject(acc, data.value);
      if clash.Some? {
        PrefixInconsistent(docs, i + 1);
        var k := ClashIsGenuine(acc, before, data.value, clash.value);
        assert Extract(docs[k]) == Some(before[k]);
        return Err(Clash(clash.value));
      }
      LeastGrows(acc, before, data.value);
      acc := merged;
    }
    assert docs[..|docs|] == docs;
    return Ok(acc);
  }

  lemma PrefixInconsistent(docs: seq<Json>, n: nat)
    requires n <= |docs| && WellFormed(docs[..n]) && !Consistent(Data(docs[..n]))
    ensures WellFormed(docs) ==> !Consistent(Data(docs))
  {
    if WellFormed(docs) {
      assert Data(docs[..n]) == Data(docs)[..n];
      var i, j :| 0 <= i < n && 0 <= j < n && !Compatible(Data(docs[..n])[i], Data(docs[..n])[j]);
      assert !Compatible(Data(docs)[i], Data(docs)[j]);
    }
  }

  // ----- least upper bounds of many -----

  ghost predicate AllCompatible(data: seq<Json>, d: Json)
  {
    forall i :: 0 <= i < |data| ==> Compatible(data[i], d)
  }

  /** `u` agrees with whatever all the documents agree with. */
  ghost predicate Welcomes(u: Json, data: seq<Json>)
  {
    forall d: Json :: d.Obj? && AllCompatible(data, d) ==> Compatible(u, d)
  }

  lemma {:induction false} LeastExists(data: seq<Json>) returns (u: Json)
    requires Consistent(data) && AllObjects(data)
    ensures Least(u, data) && Welcomes(u, data)
    decreases |data|
  {
    if data == [] {
      u := Obj(map[]);
    } else {
      var front, last := data[..|data| - 1], data[|data| - 1];
      Shorter(front, last, data);
      var v := LeastExists(front);
      LeastGrows(v, front, last);
      u := Join(v, last);
      WelcomesGrows(v, front, last);
    }
  }

  lemma Shorter(front: seq<Json>, last: Json, data: seq<Json>)
    requires data == front + [last] && Consistent(data) && AllObjects(data)
    ensures Consistent(front) && AllObjects(front) && last.Obj? && AllCompatible(front, last)
  {
    assert data[|front|] == last;
    assert forall i :: 0 <= i < |front| ==> front[i] == data[i];
  }

  lemma WelcomesGrows(v: Json, front: seq<Json>, last: Json)
    requires Welcomes(v, front) && v.Obj? && last.Obj? && Compatible(v, last)
    ensures Welcomes(Join(v, last), front + [last])
  {
    var data := front + [last];
    forall d: Json | d.Obj? && AllCompatible(data, d) ensures Compatible(Join(v, last), d) {
      assert data[|front|] == last;
      assert forall i :: 0 <= i < |front| ==> front[i] == data[i];
      assert AllCompatible(front, d);
      PairwiseSuffices(v, last, d);
    }
  }

  lemma LeastIsUnique(u: Json, v: Json, data: seq<Json>)
    requires Least(u, data) && Least(v, data)
    ensures u == v
  {
    BelowAntisymmetric(u, v);
  }

  lemma BoundPush(u: Json, data: seq<Json>, d: Json)
    ensures Bounds(u, data + [d]) <==> Bounds(u, data) && Below(d, u)
  {
    var all := data + [d];
    assert all[|data|] == d;
    assert forall i :: 0 <= i < |data| ==> all[i] == data[i];
  }

  lemma LeastGrows(u: Json, data: seq<Json>, d: Json)
    requires Least(u, data) && d.Obj? && Compatible(u, d)
    ensures Least(Join(u, d), data + [d])
  {
    var j := Join(u, d);
    JoinIsUpper(u, d);
    forall i | 0 <= i < |data| ensures Below(data[i], j) { BelowTransitive(data[i], u, j); }
    BoundPush(j, data, d);
    forall c: Json | c.Obj? && Bounds(c, data + [d]) ensures Below(j, c) {
      BoundPush(c, data, d);
      BoundedIsCompatible(u, d, c);
    }
  }

  lemma BoundedIsConsistent(u: Json, data: seq<Json>)
    requires Bounds(u, data)
    ensures Consistent(data)
  {
    forall i, j | 0 <= i < |data| && 0 <= j < |data| ensures Compatible(data[i], data[j]) {
      BoundedIsCompatible(data[i], data[j], u);
    }
  }

  /** Merging into the least upper bound so far fails exactly when some two documents disagree. */
  lemma LeastIsJudge(u: Json, data: seq<Json>, d: Json)
    requires Consistent(data) && AllObjects(data) && d.Obj? && Least(u, data)
    ensures Compatible(u, d) <==> Consistent(data + [d])
  {
    if Compatible(u, d) {
      LeastGrows(u, data, d);
      BoundedIsConsistent(Join(u, d), data + [d]);
    }
    if Consistent(data + [d]) {
      var v := LeastExists(data);
      LeastIsUnique(u, v, data);
      forall i | 0 <= i < |data| ensures Compatible(data[i], d) {
        assert (data + [d])[i] == data[i] && (data + [d])[|data|] == d;
      }
    }
  }

  // ----- order, grouping and repetition -----

  lemma SameBounds(u: Json, xs: seq<Json>, ys: seq<Json>)
    requires (forall i :: 0 <= i < |xs| ==> xs[i] in ys) && Bounds(u, ys)
    ensures Bounds(u, xs)
  {
  }

  lemma SameDocsSameTree(xs: seq<Json>, ys: seq<Json>, u: Json)
    requires (forall i :: 0 <= i < |xs| ==> xs[i] in ys) && (forall i :: 0 <= i < |ys| ==> ys[i] in xs)
    ensures Least(u, xs) <==> Least(u, ys)
    ensures Consistent(xs) <==> Consistent(ys)
  {
    forall c ensures Bounds(c, xs) <==> Bounds(c, ys) {
      if Bounds(c, ys) { SameBounds(c, xs, ys); }
      if Bounds(c, xs) { SameBounds(c, ys, xs); }
    }
    if Consistent(ys) { SameConsistency(xs, ys); }
    if Consistent(xs) { SameConsistency(ys, xs); }
  }

  lemma SameConsistency(xs: seq<Json>, ys: seq<Json>)
    requires (forall i :: 0 <= i < |xs| ==> xs[i] in ys) && Consistent(ys)
    ensures Consistent(xs)
  {
    forall i, j | 0 <= i < |xs| && 0 <= j < |xs| ensures Compatible(xs[i], xs[j]) {
      assert xs[i] in ys && xs[j] in ys;
      var k, l :| 0 <= k < |ys| && ys[k] == xs[i] && 0 <= l < |ys| && ys[l] == xs[j];
    }
  }

  lemma SameData(xs: seq<Json>, ys: seq<Json>)
    requires (forall i :: 0 <= i < |xs| ==> xs[i] in ys) && WellFormed(ys)
    ensures WellFormed(xs) && forall i :: 0 <= i < |xs| ==> Data(xs)[i] in Data(ys)
  {
    forall i | 0 <= i < |xs| ensures Extract(xs[i]).Some? && Extract(xs[i]).value in Data(ys) {
      var k :| 0 <= k < |ys| && ys[k] == xs[i];
      assert Data(ys)[k] == Extract(xs[i]).value;
    }
  }

  /** Whatever two loads make of the same documents, in any order and with any repeated: both fail, or
      both give the same tree. */
  lemma SameDocsMergeAlike(xs: seq<Json>, ys: seq<Json>, u: Option<Json>, v: Option<Json>)
    requires (forall i :: 0 <= i < |xs| ==> xs[i] in ys) && (forall i :: 0 <= i < |ys| ==> ys[i] in xs)
    requires Merged(xs, u) && Merged(ys, v)
    ensures u == v
  {
    if WellFormed(ys) { SameData(xs, ys); }
    if WellFormed(xs) {
      SameData(ys, xs);
      forall t
        ensures (Least(t, Data(xs)) <==> Least(t, Data(ys))) && (Consistent(Data(xs)) <==> Consistent(Data(ys)))
      {
        SameDocsSameTree(Data(xs), Data(ys), t);
      }
      if u.Some? && v.Some? { LeastIsUnique(u.value, v.value, Data(ys)); }
    }
  }

  lemma PermutedDocs(xs: seq<Json>, ys: seq<Json>, u: Option<Json>, v: Option<Json>)
    requires multiset(xs) == multiset(ys) && Merged(xs, u) && Merged(ys, v)
    ensures u == v
  {
    forall i | 0 <= i < |xs| ensures xs[i] in ys { assert xs[i] in multiset(ys); }
    forall i | 0 <= i < |ys| ensures ys[i] in xs { assert ys[i] in multiset(xs); }
    SameDocsMergeAlike(xs, ys, u, v);
  }

  /** Merging a document already merged changes nothing. */
  lemma MergingAgain(xs: seq<Json>, i: nat, u: Json)
    requires i < |xs|
    ensures Least(u, xs + [xs[i]]) <==> Least(u, xs)
  {
    var ys := xs + [xs[i]];
    forall j | 0 <= j < |xs| ensures xs[j] in ys { assert ys[j] == xs[j]; }
    SameDocsSameTree(xs, ys, u);
  }

  /** Merging can be grouped: the whole is the join of the merged parts. */
  lemma MergeGroups(xs: seq<Json>, ys: seq<Json>, u: Json, v: Json, w: Json)
    requires Least(u, xs) && Least(v, ys)
    ensures Least(w, xs + ys) <==> Compatible(u, v) && w == Join(u, v)
  {
    var all := xs + ys;
    forall c: Json | c.Obj? ensures Bounds(c, all) <==> Below(u, c) && Below(v, c) {
      if Bounds(c, all) {
        assert forall i :: 0 <= i < |xs| ==> all[i] == xs[i];
        assert forall i :: 0 <= i < |ys| ==> all[|xs| + i] == ys[i];
        assert Bounds(c, xs);
        assert Bounds(c, ys);
      }
      if Below(u, c) && Below(v, c) {
        forall i | 0 <= i < |all| ensures Below(all[i], c) {
          if i < |xs| { BelowTransitive(xs[i], u, c); } else { BelowTransitive(ys[i - |xs|], v, c); }
        }
      }
    }
    if Compatible(u, v) {
      JoinIsUpper(u, v);
      forall c: Json | c.Obj? && Bounds(c, all) ensures Below(Join(u, v), c) { BoundedIsCompatible(u, v, c); }
      assert Least(Join(u, v), all);
      if Least(w, all) { LeastIsUnique(w, Join(u, v), all); }
    } else if Least(w, all) {
      BoundedIsCompatible(u, v, w);
    }
  }

  ghost predicate SomeHas(data: seq<Json>, p: Path) { exists i :: 0 <= i < |data| && Get(data[i], p).Some? }

  /** Values at `p` that are no objects are `u`'s value there. */
  ghost predicate LeavesAt(u: Json, data: seq<Json>, p: Path)
  {
    forall i :: 0 <= i < |data| && Get(data[i], p).Some? && !Get(data[i], p).value.Obj? ==> Get(u, p) == Get(data[i], p)
  }

  lemma HasPush(front: seq<Json>, last: Json, p: Path)
    ensures SomeHas(front + [last], p) <==> SomeHas(front, p) || Get(last, p).Some?
  {
    var data := front + [last];
    assert data[|front|] == last;
    assert forall i :: 0 <= i < |front| ==> front[i] == data[i];
    if SomeHas(front, p) {
      var i :| 0 <= i < |front| && Get(front[i], p).Some?;
      assert Get(data[i], p).Some?;
    }
  }

  lemma LeavesPush(v: Json, front: seq<Json>, last: Json, p: Path)
    requires Compatible(v, last) && LeavesAt(v, front, p)
    ensures LeavesAt(Join(v, last), front + [last], p)
  {
    var data := front + [last];
    JoinPaths(v, last, p);
    forall i | 0 <= i < |data| && Get(data[i], p).Some? && !Get(data[i], p).value.Obj?
      ensures Get(Join(v, last), p) == Get(data[i], p)
    {
      if i < |front| { assert data[i] == front[i]; }
    }
  }

  /** The merged tree has exactly the paths of the documents, and their values. */
  lemma {:induction false} MergedPaths(data: seq<Json>, u: Json, p: Path)
    requires AllObjects(data) && Least(u, data) && p != []
    ensures Get(u, p).Some? <==> SomeHas(data, p)
    ensures LeavesAt(u, data, p)
    decreases |data|
  {
    BoundedIsConsistent(u, data);
    if data == [] {
      LeastIsUnique(u, Obj(map[]), data);
    } else {
      var front, last := data[..|data| - 1], data[|data| - 1];
      Shorter(front, last, data);
      var v := LeastExists(front);
      LeastGrows(v, front, last);
      assert data == front + [last];
      LeastIsUnique(u, Join(v, last), data);
      MergedPaths(front, v, p);
      JoinPaths(v, last, p);
      HasPush(front, last, p);
      LeavesPush(v, front, last, p);
    }
  }

  lemma {:induction false} BelowHas(a: Json, b: Json, p: Path)
    requires Below(a, b) && Get(a, p).Some?
    ensures Get(b, p).Some? && (Get(a, p).value.Obj? ==> Get(b, p).value.Obj?)
    decreases |p|
  {
    if p != [] { BelowHas(a.fields[p[0]], b.fields[p[0]], p[1..]); }
  }

  /** A clash with what was merged so far is a clash with one of the documents merged. */
  lemma ClashIsGenuine(u: Json, data: seq<Json>, d: Json, p: Path) returns (i: nat)
    requires AllObjects(data) && Least(u, data) && p != [] && ClashesAt(u, d, p)
    ensures i < |data| && ClashesAt(data[i], d, p)
  {
    MergedPaths(data, u, p);
    i :| 0 <= i < |data| && Get(data[i], p).Some?;
    BelowHas(data[i], u, p);
  }
}
