/** JSON values and the dotted-path access of `route.rs`. */
module Json {
  import opened Text

  /** A binary64 value, kept abstract: only the host's numerics interpret it. */
  datatype Float = Float(bits: nat)

  /** serde_json's three number representations. */
  datatype Number = I64(i: int) | U64(u: nat) | F64(f: Float)

  datatype Json =
    | Null
    | Bool(b: bool)
    | Num(n: Number)
    | Str(s: string)
    | Arr(items: seq<Json>)
    | Obj(fields: map<string, Json>)

  type Path = seq<string>

  /** The node `path` leads to; only objects have children. */
  function Get(j: Json, path: Path): Option<Json>
  {
    if path == [] then Some(j)
    else if j.Obj? && path[0] in j.fields then Get(j.fields[path[0]], path[1..])
    else None
  }

  /** Write at `path`; `None` when a parent is missing or is no object. */
  function Set(j: Json, path: Path, v: Json): Option<Json>
    requires path != []
  {
    if !j.Obj? then None
    else if |path| == 1 then Some(Obj(j.fields[path[0] := v]))
    else if path[0] !in j.fields || !j.fields[path[0]].Obj? then None
    else match Set(j.fields[path[0]], path[1..], v)
      case None => None
      case Some(child) => Some(Obj(j.fields[path[0] := child]))
  }

  /** Delete the entry at `path`; `None` when there was nothing to delete. */
  function Remove(j: Json, path: Path): Option<Json>
    requires path != []
  {
    if !j.Obj? || path[0] !in j.fields then None
    else if |path| == 1 then Some(Obj(j.fields - {path[0]}))
    else match Remove(j.fields[path[0]], path[1..])
      case None => None
      case Some(child) => Some(Obj(j.fields[path[0] := child]))
  }

  function Segments(path: string): (segs: Path)
    ensures segs != []
  {
    Split(path, '.')
  }

  /** Neither path leads into the other. */
  predicate Apart(p: Path, q: Path)
  {
    !(p <= q) && !(q <= p)
  }

  // ----- the loops of route.rs -----

  /** `get_dotted`: walk down one segment at a time. */
  method GetDotted(root: Json, path: string) returns (found: Option<Json>)
    ensures found == Get(root, Segments(path))
  {
    var segs := Segments(path);
    var cur := root;
    var i := 0;
    while i < |segs|
      invariant 0 <= i <= |segs|
      invariant Get(root, segs) == Get(cur, segs[i..])
    {
      if !cur.Obj? || segs[i] !in cur.fields { return None; }
      cur := cur.fields[segs[i]];
      assert segs[i..][1..] == segs[i + 1..];
      i := i + 1;
    }
    return Some(cur);
  }

  /** An object passed on the way down and the key taken out of it. */
  datatype Frame = Frame(fields: map<string, Json>, key: string)

  /** Put `child` back under the frames, innermost last. */
  function Rebuild(frames: seq<Frame>, child: Json): Json
  {
    if frames == [] then child
    else
      var f := frames[|frames| - 1];
      Rebuild(frames[..|frames| - 1], Obj(f.fields[f.key := child]))
  }

  lemma {:induction false} RebuildSnoc(frames: seq<Frame>, f: Frame, child: Json)
    ensures Rebuild(frames + [f], child) == Rebuild(frames, Obj(f.fields[f.key := child]))
  {
    assert (frames + [f])[..|frames|] == frames;
  }

  function WrapSome(frames: seq<Frame>, r: Option<Json>): Option<Json>
  {
    if r.None? then None else Some(Rebuild(frames, r.value))
  }

  /** Descend to the parent object of the last segment, keeping the way back. */
  method Descend(root: Json, segs: Path) returns (ok: bool, frames: seq<Frame>, cur: Json)
    requires segs != []
    ensures ok ==> cur.Obj? && forall v ::
      Set(root, segs, v) == WrapSome(frames, Set(cur, segs[|segs| - 1..], v))
    ensures ok ==> Remove(root, segs) == WrapSome(frames, Remove(cur, segs[|segs| - 1..]))
    ensures !ok ==> Remove(root, segs) == None && forall v :: Set(root, segs, v) == None
  {
    cur := root;
    frames := [];
    var i := 0;
    assert segs[0..] == segs;
    while i < |segs| - 1
      invariant 0 <= i <= |segs| - 1
      invariant forall v :: Set(root, segs, v) == WrapSome(frames, Set(cur, segs[i..], v))
      invariant Remove(root, segs) == WrapSome(frames, Remove(cur, segs[i..]))
    {
      assert segs[i..][1..] == segs[i + 1..];
      if !cur.Obj? || segs[i] !in cur.fields || !cur.fields[segs[i]].Obj? {
        return false, frames, cur;
      }
      var f := Frame(cur.fields, segs[i]);
      var next := cur.fields[segs[i]];
      forall v ensures WrapSome(frames + [f], Set(next, segs[i + 1..], v)) == WrapSome(frames, Set(cur, segs[i..], v)) {
        var inner := Set(next, segs[i + 1..], v);
        if inner.Some? { RebuildSnoc(frames, f, inner.value); }
      }
      var gone := Remove(next, segs[i + 1..]);
      if gone.Some? { RebuildSnoc(frames, f, gone.value); }
      frames, cur := frames + [f], next;
      i := i + 1;
    }
    ok := cur.Obj?;
  }

  /** `set_dotted`: the updated root, and whether the write happened. */
  method SetDotted(root: Json, path: string, value: Json) returns (ok: bool, updated: Json)
    ensures Set(root, Segments(path), value) == if ok then Some(updated) else None
    ensures !ok ==> updated == root
  {
    var segs := Segments(path);
    var reached, frames, cur := Descend(root, segs);
    if !reached { return false, root; }
    return true, Rebuild(frames, Obj(cur.fields[segs[|segs| - 1] := value]));
  }

  /** `remove_dotted`. */
  method RemoveDotted(root: Json, path: string) returns (ok: bool, updated: Json)
    ensures Remove(root, Segments(path)) == if ok then Some(updated) else None
    ensures !ok ==> updated == root
  {
    var segs := Segments(path);
    var leaf := segs[|segs| - 1];
    var reached, frames, cur := Descend(root, segs);
    if !reached || leaf !in cur.fields { return false, root; }
    return true, Rebuild(frames, Obj(cur.fields - {leaf}));
  }

  // ----- laws -----

  /** A field that is present can always be written and always be removed. */
  lemma {:induction false} FoundCanBeEdited(j: Json, p: Path, v: Json)
    requires p != [] && Get(j, p).Some?
    ensures Set(j, p, v).Some? && Remove(j, p).Some?
  {
    if |p| > 1 {
      assert j.fields[p[0]].Obj? by { assert p[1..] != []; }
      FoundCanBeEdited(j.fields[p[0]], p[1..], v);
    }
  }

  /** A write is read back at its path, and below it. */
  lemma {:induction false} GetAfterSet(j: Json, p: Path, q: Path, v: Json)
    requires p != [] && Set(j, p, v).Some?
    ensures Get(Set(j, p, v).value, p + q) == Get(v, q)
  {
    assert (p + q)[1..] == p[1..] + q;
    if |p| == 1 {
      assert p[1..] + q == q;
    } else {
      GetAfterSet(j.fields[p[0]], p[1..], q, v);
    }
  }

  /** Nothing is left at or below a removed path. */
  lemma {:induction false} GetAfterRemove(j: Json, p: Path, q: Path)
    requires p != [] && Remove(j, p).Some?
    ensures Get(Remove(j, p).value, p + q) == None
  {
    assert (p + q)[1..] == p[1..] + q;
    if |p| > 1 {
      GetAfterRemove(j.fields[p[0]], p[1..], q);
    }
  }

  /** Edits keep the value of every path apart from the edited one. */
  lemma {:induction false} GetApart(j: Json, p: Path, q: Path, v: Json)
    requires p != [] && Apart(p, q)
    ensures Set(j, p, v).Some? ==> Get(Set(j, p, v).value, q) == Get(j, q)
    ensures Remove(j, p).Some? ==> Get(Remove(j, p).value, q) == Get(j, q)
  {
    assert q != [];
    if q[0] == p[0] && |p| > 1 {
      assert p == [p[0]] + p[1..] && q == [q[0]] + q[1..];
      assert Apart(p[1..], q[1..]);
      if j.Obj? && p[0] in j.fields { GetApart(j.fields[p[0]], p[1..], q[1..], v); }
    }
  }
}
