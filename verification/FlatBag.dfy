/** Flattening a JSON tree into dotted attributes (`walk` in apl-cmf's `payload.rs`). */
module FlatBag {
  import opened Text
  import opened Json
  import opened Ir
  import opened Attributes

  predicate AllStrings(items: seq<Json>) { forall i :: 0 <= i < |items| ==> items[i].Str? }

  function Strings(items: seq<Json>): set<string>
  {
    set i | 0 <= i < |items| && items[i].Str? :: items[i].s
  }

  /** What the bag can say about a node: scalars, and non-empty arrays of strings as sets. */
  function Reading(j: Json, host: Host): Option<AttributeValue>
  {
    match j
    case Null => None
    case Bool(b) => Some(ABool(b))
    case Num(I64(i)) => Some(AInt(i))
    case Num(U64(u)) => Some(AFloat(host.floatOfInt(u)))
    case Num(F64(f)) => Some(AFloat(f))
    case Str(s) => Some(AString(s))
    case Arr(items) => if items != [] && AllStrings(items) then Some(ASet(Strings(items))) else None
    case Obj(_) => None
  }

  function Extend(prefix: string, key: string): string
  {
    if prefix == "" then key else prefix + "." + key
  }

  function Key(prefix: string, path: Path): string
    decreases |path|
  {
    if path == [] then prefix else Key(Extend(prefix, path[0]), path[1..])
  }

  // ----- what may be written -----

  predicate ReadsAt(j: Json, prefix: string, path: Path, key: string, v: AttributeValue, host: Host)
  {
    Key(prefix, path) == key && Get(j, path).Some? && Reading(Get(j, path).value, host) == Some(v)
  }

  /** Some node of the tree reads as `v` and flattens to `key`. */
  ghost predicate Entry(j: Json, prefix: string, key: string, v: AttributeValue, host: Host)
  {
    exists path :: ReadsAt(j, prefix, path, key, v, host)
  }

  /** An entry of one of the named children. */
  ghost predicate ChildEntry(fields: map<string, Json>, names: set<string>, prefix: string, key: string,
                             v: AttributeValue, host: Host)
    requires names <= fields.Keys
  {
    exists k :: k in names && Entry(fields[k], Extend(prefix, k), key, v, host)
  }

  lemma LeafEntry(j: Json, prefix: string, key: string, v: AttributeValue, host: Host)
    requires !j.Obj?
    ensures Entry(j, prefix, key, v, host) <==> key == prefix && Reading(j, host) == Some(v)
  {
    if key == prefix && Reading(j, host) == Some(v) { assert ReadsAt(j, prefix, [], key, v, host); }
  }

  lemma ObjectEntry(fields: map<string, Json>, prefix: string, key: string, v: AttributeValue, host: Host)
    ensures Entry(Obj(fields), prefix, key, v, host) <==> ChildEntry(fields, fields.Keys, prefix, key, v, host)
  {
    var j := Obj(fields);
    if Entry(j, prefix, key, v, host) {
      var path :| ReadsAt(j, prefix, path, key, v, host);
      assert ReadsAt(fields[path[0]], Extend(prefix, path[0]), path[1..], key, v, host);
    }
    if ChildEntry(fields, fields.Keys, prefix, key, v, host) {
      var k :| k in fields.Keys && Entry(fields[k], Extend(prefix, k), key, v, host);
      var path :| ReadsAt(fields[k], Extend(prefix, k), path, key, v, host);
      assert ([k] + path)[1..] == path;
      assert ReadsAt(j, prefix, [k] + path, key, v, host);
    }
  }

  /** Keys with an entry hold an entry's value, all others are as before. */
  ghost predicate Written(before: Bag, after: Bag, has: (string, AttributeValue) -> bool)
  {
    forall key :: KeyWritten(before, after, has, key)
  }

  ghost predicate KeyWritten(before: Bag, after: Bag, has: (string, AttributeValue) -> bool, key: string)
  {
    if exists v :: has(key, v) then key in after && has(key, after[key])
    else (key in after <==> key in before) && (key in after ==> after[key] == before[key])
  }

  lemma WrittenTwice(b0: Bag, b1: Bag, b2: Bag, h1: (string, AttributeValue) -> bool,
                     h2: (string, AttributeValue) -> bool, h: (string, AttributeValue) -> bool)
    requires Written(b0, b1, h1) && Written(b1, b2, h2)
    requires forall key, v :: h(key, v) <==> h1(key, v) || h2(key, v)
    ensures Written(b0, b2, h)
  {
    forall key ensures KeyWritten(b0, b2, h, key) {
      assert KeyWritten(b0, b1, h1, key) && KeyWritten(b1, b2, h2, key);
    }
  }

  ghost function Entries(j: Json, prefix: string, host: Host): (string, AttributeValue) -> bool
  {
    (key, v) => Entry(j, prefix, key, v, host)
  }

  ghost predicate Indexed(j: Json, prefix: string, before: Bag, after: Bag, host: Host)
  {
    Written(before, after, Entries(j, prefix, host))
  }

  // ----- as it runs -----

  class AttributeBag {
    var attributes: Bag
    const host: Host

    constructor (bag: Bag, host: Host)
      ensures attributes == bag && this.host == host
    {
      attributes := bag;
      this.host := host;
    }

    method SetKey(key: string, value: AttributeValue)
      modifies this
      ensures attributes == old(attributes)[key := value]
    {
      attributes := attributes[key := value];
    }

    /** `walk`; the children of an object come in any order. */
    method Walk(j: Json, prefix: string)
      modifies this
      ensures Indexed(j, prefix, old(attributes), attributes, host)
      decreases j, 1
    {
      if j.Obj? {
        WalkFields(j, prefix);
        forall key, v
          ensures Entry(j, prefix, key, v, host) <==> ChildEntry(j.fields, j.fields.Keys, prefix, key, v, host)
        {
          ObjectEntry(j.fields, prefix, key, v, host);
        }
        SameEntries(old(attributes), attributes,
                    (key, v) => ChildEntry(j.fields, j.fields.Keys, prefix, key, v, host),
                    Entries(j, prefix, host));
        return;
      }
      match j {
        case Arr(items) =>
          var found, strings := CollectStrings(items);
          if found && strings != {} { SetKey(prefix, ASet(strings)); }
        case Str(s) => SetKey(prefix, AString(s));
        case Bool(b) => SetKey(prefix, ABool(b));
        case Num(I64(i)) => SetKey(prefix, AInt(i));
        case Num(U64(u)) => SetKey(prefix, AFloat(host.floatOfInt(u)));
        case Num(F64(f)) => SetKey(prefix, AFloat(f));
        case Null =>
      }
      forall key, v ensures Entry(j, prefix, key, v, host) <==> key == prefix && Reading(j, host) == Some(v) {
        LeafEntry(j, prefix, key, v, host);
      }
      LeafWritten(j, prefix, old(attributes), attributes, host);
    }

    method WalkFields(j: Json, prefix: string)
      requires j.Obj?
      modifies this
      ensures Written(old(attributes), attributes,
                      (key, v) => ChildEntry(j.fields, j.fields.Keys, prefix, key, v, host))
      decreases j, 0
    {
      var done: set<string> := {};
      while done != j.fields.Keys
        invariant done <= j.fields.Keys
        invariant Written(old(attributes), attributes, (key, v) => ChildEntry(j.fields, done, prefix, key, v, host))
        decreases j.fields.Keys - done
      {
        var k :| k in j.fields.Keys && k !in done;
        ghost var before := attributes;
        Walk(j.fields[k], Extend(prefix, k));
        WrittenTwice(old(attributes), before, attributes,
                     (key, v) => ChildEntry(j.fields, done, prefix, key, v, host),
                     Entries(j.fields[k], Extend(prefix, k), host),
                     (key, v) => ChildEntry(j.fields, done + {k}, prefix, key, v, host));
        done := done + {k};
      }
    }
  }

  /** The loop over an array: all strings, and which. */
  method CollectStrings(items: seq<Json>) returns (ok: bool, strings: set<string>)
    ensures ok <==> AllStrings(items)
    ensures ok ==> strings == Strings(items) && (strings != {} <==> items != [])
  {
    ok, strings := true, {};
    for i := 0 to |items|
      invariant ok && AllStrings(items[..i]) && strings == Strings(items[..i])
    {
      if !items[i].Str? { return false, {}; }
      assert items[..i + 1] == items[..i] + [items[i]];
      StringsPush(items[..i], items[i]);
      strings := strings + {items[i].s};
    }
    assert items[..|items|] == items;
    if items != [] { assert items[0].s in strings; }
  }

  lemma StringsPush(items: seq<Json>, item: Json)
    requires item.Str?
    ensures Strings(items + [item]) == Strings(items) + {item.s}
  {
    forall i | 0 <= i < |items| && items[i].Str? ensures items[i].s in Strings(items + [item]) {
      assert (items + [item])[i] == items[i];
    }
    assert (items + [item])[|items|] == item;
  }

  lemma SameEntries(before: Bag, after: Bag, h1: (string, AttributeValue) -> bool, h2: (string, AttributeValue) -> bool)
    requires Written(before, after, h1) && forall key, v :: h1(key, v) <==> h2(key, v)
    ensures Written(before, after, h2)
  {
    forall key ensures KeyWritten(before, after, h2, key) { assert KeyWritten(before, after, h1, key); }
  }

  lemma LeafWritten(j: Json, prefix: string, before: Bag, after: Bag, host: Host)
    requires forall key, v :: Entry(j, prefix, key, v, host) <==> key == prefix && Reading(j, host) == Some(v)
    requires after == if Reading(j, host).Some? then before[prefix := Reading(j, host).value] else before
    ensures Indexed(j, prefix, before, after, host)
  {
    var has := Entries(j, prefix, host);
    forall key ensures KeyWritten(before, after, has, key) {
      if key == prefix && Reading(j, host).Some? { assert has(key, Reading(j, host).value); }
    }
  }

  // ----- the index is faithful -----

  /** No object key in the tree holds a dot. */
  ghost predicate Dotless(j: Json)
  {
    forall path, k :: Get(j, path).Some? && Get(j, path).value.Obj? && k in Get(j, path).value.fields ==> '.' !in k
  }

  lemma {:induction false} FoundPathIsDotless(j: Json, path: Path)
    requires Dotless(j) && Get(j, path).Some?
    ensures forall i :: 0 <= i < |path| ==> '.' !in path[i]
    decreases |path|
  {
    if path != [] {
      var child := j.fields[path[0]];
      assert Get(j, []).value.Obj?;
      forall p, k | Get(child, p).Some? && Get(child, p).value.Obj? && k in Get(child, p).value.fields
        ensures '.' !in k
      {
        assert ([path[0]] + p)[1..] == p;
        assert Get(j, [path[0]] + p) == Get(child, p);
      }
      FoundPathIsDotless(child, path[1..]);
    }
  }

  /** Under a non-empty prefix the key spells the path. */
  lemma {:induction false} KeySpells(prefix: string, path: Path)
    requires prefix != "" && path != []
    ensures Key(prefix, path) == prefix + "." + Join(path, '.')
    decreases |path|
  {
    if |path| == 1 {
      assert path[1..] == [];
    } else {
      KeySpells(Extend(prefix, path[0]), path[1..]);
      assert prefix + "." + path[0] + "." + Join(path[1..], '.') ==
        prefix + "." + (path[0] + ['.'] + Join(path[1..], '.'));
    }
  }

  function ReadingAt(j: Json, path: Path, host: Host): Option<AttributeValue>
  {
    if Get(j, path).Some? then Reading(Get(j, path).value, host) else None
  }

  /** What a node reads is also what its dotted spelling finds. */
  predicate SpeltRight(j: Json, path: Path, host: Host)
    requires path != []
  {
    ReadingAt(j, path, host).Some? ==> ReadingAt(j, Segments(Join(path, '.')), host) == ReadingAt(j, path, host)
  }

  ghost predicate AllSpeltRight(j: Json, host: Host) { forall path :: path != [] ==> SpeltRight(j, path, host) }

  lemma DotlessIsSpeltRight(j: Json, host: Host)
    requires Dotless(j)
    ensures AllSpeltRight(j, host)
  {
    forall path: Path | path != [] ensures SpeltRight(j, path, host) {
      if Get(j, path).Some? {
        FoundPathIsDotless(j, path);
        SplitJoin(path, '.');
      }
    }
  }

  /** The key of a node below the root, and the node of such a key. */
  lemma KeyIsSpelling(prefix: string, path: Path, q: string)
    requires prefix != ""
    ensures Key(prefix, path) == prefix + "." + q <==> path != [] && Join(path, '.') == q
  {
    if path != [] {
      KeySpells(prefix, path);
      assert (prefix + "." + Join(path, '.'))[|prefix| + 1..] == Join(path, '.');
      assert (prefix + "." + q)[|prefix| + 1..] == q;
    }
  }

  lemma EntryIsReading(j: Json, prefix: string, q: string, v: AttributeValue, host: Host)
    requires AllSpeltRight(j, host) && prefix != ""
    ensures Entry(j, prefix, prefix + "." + q, v, host) <==> ReadingAt(j, Segments(q), host) == Some(v)
  {
    var key := prefix + "." + q;
    if Entry(j, prefix, key, v, host) {
      var path :| ReadsAt(j, prefix, path, key, v, host);
      KeyIsSpelling(prefix, path, q);
      assert SpeltRight(j, path, host);
    }
    if ReadingAt(j, Segments(q), host) == Some(v) {
      JoinSplit(q, '.');
      KeyIsSpelling(prefix, Segments(q), q);
      assert ReadsAt(j, prefix, Segments(q), key, v, host);
    }
  }

  /** The bag under the prefixed path says what reading the tree by that path says, and where the tree
      says nothing the bag is as it was. */
  predicate FaithfulAt(j: Json, prefix: string, before: Bag, after: Bag, host: Host, q: string)
  {
    var key := prefix + "." + q;
    match ReadingAt(j, Segments(q), host)
    case Some(v) => key in after && after[key] == v
    case None => (key in after <==> key in before) && (key in after ==> after[key] == before[key])
  }

  lemma IndexIsFaithful(j: Json, prefix: string, before: Bag, after: Bag, host: Host, q: string)
    requires AllSpeltRight(j, host) && prefix != "" && Indexed(j, prefix, before, after, host)
    ensures FaithfulAt(j, prefix, before, after, host, q)
  {
    var key := prefix + "." + q;
    forall v ensures Entry(j, prefix, key, v, host) <==> ReadingAt(j, Segments(q), host) == Some(v) {
      EntryIsReading(j, prefix, q, v, host);
    }
    assert KeyWritten(before, after, Entries(j, prefix, host), key);
    if ReadingAt(j, Segments(q), host).Some? {
      assert Entries(j, prefix, host)(key, ReadingAt(j, Segments(q), host).value);
    }
  }

  /** However the walk orders its children and whatever the bag held. */
  ghost predicate AlwaysFaithful(j: Json, prefix: string, host: Host)
  {
    forall before, after, q :: Indexed(j, prefix, before, after, host) ==> FaithfulAt(j, prefix, before, after, host, q)
  }

  /** A walk may leave the value of any node under its key, and the bag may have held nothing there. */
  lemma AnyEntryMayStand(j: Json, prefix: string, before: Bag, after: Bag, host: Host, key: string, v: AttributeValue)
    requires Indexed(j, prefix, before, after, host) && Entry(j, prefix, key, v, host)
    ensures Indexed(j, prefix, before - {key}, after[key := v], host)
  {
    var has, b, a := Entries(j, prefix, host), before - {key}, after[key := v];
    assert has(key, v);
    forall k ensures KeyWritten(b, a, has, k) { assert KeyWritten(before, after, has, k); }
  }

  /** The index is faithful at every dotted path exactly when every node that reads is what its dotted
      spelling finds; a tree without dots in its keys is one such. */
  lemma FaithfulExactlyWhen(j: Json, prefix: string, before: Bag, after: Bag, host: Host)
    requires prefix != "" && Indexed(j, prefix, before, after, host)
    ensures AlwaysFaithful(j, prefix, host) <==> AllSpeltRight(j, host)
    ensures Dotless(j) ==> AllSpeltRight(j, host)
  {
    if Dotless(j) { DotlessIsSpeltRight(j, host); }
    if AllSpeltRight(j, host) {
      forall b, a, q | Indexed(j, prefix, b, a, host) ensures FaithfulAt(j, prefix, b, a, host, q) {
        IndexIsFaithful(j, prefix, b, a, host, q);
      }
    }
    if AlwaysFaithful(j, prefix, host) {
      forall path: Path | path != [] ensures SpeltRight(j, path, host) {
        if ReadingAt(j, path, host).Some? {
          var q, v := Join(path, '.'), ReadingAt(j, path, host).value;
          var key := prefix + "." + q;
          KeyIsSpelling(prefix, path, q);
          assert ReadsAt(j, prefix, path, key, v, host);
          AnyEntryMayStand(j, prefix, before, after, host, key, v);
          assert FaithfulAt(j, prefix, before - {key}, after[key := v], host, q);
        }
      }
    }
  }

  /** The bare prefix holds the reading of the whole tree. */
  lemma RootIsRead(j: Json, prefix: string, before: Bag, after: Bag, host: Host)
    requires prefix != "" && Indexed(j, prefix, before, after, host)
    ensures match Reading(j, host)
      case Some(v) => prefix in after && after[prefix] == v
      case None => (prefix in after <==> prefix in before) && (prefix in after ==> after[prefix] == before[prefix])
  {
    var has := Entries(j, prefix, host);
    forall v ensures has(prefix, v) <==> Reading(j, host) == Some(v) {
      if has(prefix, v) {
        var path :| ReadsAt(j, prefix, path, prefix, v, host);
        if path != [] { KeySpells(prefix, path); }
      }
      if Reading(j, host) == Some(v) { assert ReadsAt(j, prefix, [], prefix, v, host); }
    }
    assert KeyWritten(before, after, has, prefix);
    if Reading(j, host).Some? { assert has(prefix, Reading(j, host).value); }
  }

  /** No other key is written: a changed key is the prefix itself or a prefixed path. */
  lemma NothingElseWritten(j: Json, prefix: string, before: Bag, after: Bag, host: Host, key: string)
    requires prefix != "" && Indexed(j, prefix, before, after, host)
    requires key != prefix && !(prefix + "." <= key)
    ensures (key in after <==> key in before) && (key in after ==> after[key] == before[key])
  {
    assert KeyWritten(before, after, Entries(j, prefix, host), key);
    forall v ensures !Entry(j, prefix, key, v, host) {
      if Entry(j, prefix, key, v, host) {
        var path :| ReadsAt(j, prefix, path, key, v, host);
        if path != [] { KeySpells(prefix, path); }
      }
    }
  }

  // ----- why dots must stay out of keys -----

  const INNER: map<string, Json> := map["b" := Bool(false)]
  const OUTER: map<string, Json> := map["a.b" := Bool(true), "a" := Obj(INNER)]

  /** A dotted object key can hide another path: `a.b` of this tree is false, and the bag may say true. */
  lemma DottedKeyCollides(prefix: string, host: Host)
    requires prefix != ""
    ensures ReadingAt(Obj(OUTER), Segments("a.b"), host) == Some(ABool(false))
    ensures Indexed(Obj(OUTER), prefix, map[], map[prefix + ".a.b" := ABool(true)], host)
  {
    assert Segments("a.b") == ["a", "b"] by {
      assert Join(["a", "b"], '.') == "a.b";
      SplitJoin(["a", "b"], '.');
    }
    assert ["a", "b"][1..] == ["b"] && ["b"][1..] == [];
    assert Get(Obj(INNER), ["b"]) == Some(Bool(false));
    var key, has := prefix + ".a.b", Entries(Obj(OUTER), prefix, host);
    forall k ensures KeyWritten(map[], map[key := ABool(true)], has, k) {
      forall v ensures has(k, v) <==> k == key && (v == ABool(true) || v == ABool(false)) {
        TwoNodes(prefix, k, v, host);
      }
      if k == key { assert has(k, ABool(true)); }
    }
  }

  lemma TwoNodes(prefix: string, key: string, v: AttributeValue, host: Host)
    requires prefix != ""
    ensures Entry(Obj(OUTER), prefix, key, v, host) <==>
      key == prefix + ".a.b" && (v == ABool(true) || v == ABool(false))
  {
    var a := Extend(prefix, "a");
    assert prefix + "." + "a.b" == prefix + ".a.b" == prefix + "." + "a" + "." + "b";
    ObjectEntry(OUTER, prefix, key, v, host);
    LeafEntry(Bool(true), Extend(prefix, "a.b"), key, v, host);
    ObjectEntry(INNER, a, key, v, host);
    LeafEntry(Bool(false), Extend(a, "b"), key, v, host);
    assert "a.b" in OUTER.Keys && "a" in OUTER.Keys && "b" in INNER.Keys;
  }
}
