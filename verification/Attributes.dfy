/** The attribute bag (`attributes.rs`) and predicate evaluation (`evaluator.rs`). */
module Attributes {
  import opened Text
  import opened Json
  import opened Ir

  /** What the model leaves uninterpreted: floats, regular expressions, digests. */
  datatype Host = Host(
    parseFloat: string -> Option<Float>,
    showFloat: Float -> string,
    floatOfInt: int -> Float,
    floatEq: (Float, Float) -> bool,
    floatLt: (Float, Float) -> bool,
    floatLe: (Float, Float) -> bool,
    regexValid: string -> bool,
    regexMatch: (string, string) -> bool,
    digest: Json -> string)

  function GetBool(bag: Bag, key: string): Option<bool>
  {
    if key in bag && bag[key].ABool? then Some(bag[key].b) else None
  }

  function GetString(bag: Bag, key: string): Option<string>
  {
    if key in bag && bag[key].AString? then Some(bag[key].s) else None
  }

  function GetStringSet(bag: Bag, key: string): Option<set<string>>
  {
    if key in bag && bag[key].ASet? then Some(bag[key].strings) else None
  }

  /** The scalar at `key` as a path segment; a set cannot index a path. */
  function ScalarAsString(bag: Bag, key: string, host: Host): Option<string>
  {
    if key !in bag then None
    else match bag[key]
      case AString(s) => Some(s)
      case AInt(i) => Some(ShowInt(i))
      case ABool(b) => Some(if b then "true" else "false")
      case AFloat(f) => Some(host.showFloat(f))
      case ASet(_) => None
  }

  /** The text up to and with the group opened at `open`, spelt as path segments, and what follows it. */
  function Group(bag: Bag, rest: string, open: nat, host: Host): (r: Option<(string, string)>)
    requires open < |rest|
    ensures r.Some? ==> |r.value.1| < |rest|
  {
    var after := rest[open + 1..];
    match IndexOf(after, ']')
    case None => None
    case Some(close) =>
      match ScalarAsString(bag, Trim(after[..close]), host)
      case None => None
      case Some(seg) => Some((rest[..open] + "." + seg, after[close + 1..]))
  }

  /** Replace each `[inner]` group by `.` and the scalar `inner` names, left to right. */
  function Expand(bag: Bag, rest: string, host: Host): Option<string>
    decreases |rest|
  {
    match IndexOf(rest, '[')
    case None => Some(rest)
    case Some(open) =>
      match Group(bag, rest, open, host)
      case None => None
      case Some((more, tail)) => Prepend(more, Expand(bag, tail, host))
  }

  function Prepend(out: string, r: Option<string>): Option<string>
  {
    if r.None? then None else Some(out + r.value)
  }

  lemma PrependTwice(out: string, more: string, r: Option<string>)
    ensures Prepend(out, Prepend(more, r)) == Prepend(out + more, r)
    ensures Prepend("", r) == r
  {
    if r.Some? {
      assert out + (more + r.value) == (out + more) + r.value;
      assert "" + r.value == r.value;
    }
  }

  /** `resolve_key`, accumulating into `out` as the code does. */
  method ResolveKey(bag: Bag, key: string, host: Host) returns (r: Option<string>)
    ensures r == Expand(bag, key, host)
  {
    var out, rest := "", key;
    var open := IndexOf(rest, '[');
    PrependTwice("", "", Expand(bag, key, host));
    while open.Some?
      invariant open == IndexOf(rest, '[')
      invariant Expand(bag, key, host) == Prepend(out, Expand(bag, rest, host))
      decreases |rest|
    {
      var group := Group(bag, rest, open.value, host);
      if group.None? { return None; }
      var (more, tail) := group.value;
      PrependTwice(out, more, Expand(bag, tail, host));
      out, rest := out + more, tail;
      open := IndexOf(rest, '[');
    }
    return Some(out + rest);
  }

  // ----- evaluation -----

  function FloatOfAttr(v: AttributeValue, host: Host): Option<Float>
  {
    match v
    case AInt(i) => Some(host.floatOfInt(i))
    case AFloat(f) => Some(f)
    case AString(s) => host.parseFloat(Trim(s))
    case _ => None
  }

  function FloatOfLit(l: Literal, host: Host): Option<Float>
  {
    match l
    case LInt(i) => Some(host.floatOfInt(i))
    case LFloat(t) => host.parseFloat(t)
    case LString(s) => host.parseFloat(Trim(s))
    case _ => None
  }

  predicate ValuesEq(v: AttributeValue, l: Literal, host: Host)
  {
    match (v, l)
    case (ABool(a), LBool(b)) => a == b
    case (AInt(a), LInt(b)) => a == b
    case (AString(a), LString(b)) => a == b
    case (AFloat(a), LFloat(t)) => host.parseFloat(t).Some? && host.floatEq(a, host.parseFloat(t).value)
    case (AInt(a), LFloat(t)) =>
      host.parseFloat(t).Some? && host.floatEq(host.floatOfInt(a), host.parseFloat(t).value)
    case (AFloat(a), LInt(b)) => host.floatEq(a, host.floatOfInt(b))
    case _ => false
  }

  predicate NumericCompare(v: AttributeValue, l: Literal, op: CompareOp, host: Host)
  {
    var a, b := FloatOfAttr(v, host), FloatOfLit(l, host);
    a.Some? && b.Some? &&
    match op
    case Gt => host.floatLt(b.value, a.value)
    case GtEq => host.floatLe(b.value, a.value)
    case Lt => host.floatLt(a.value, b.value)
    case LtEq => host.floatLe(a.value, b.value)
    case _ => false
  }

  predicate Compare(key: string, op: CompareOp, l: Literal, bag: Bag, host: Host)
  {
    key in bag &&
    match op
    case Contains => bag[key].ASet? && l.LString? && l.s in bag[key].strings
    case Eq => ValuesEq(bag[key], l, host)
    case NotEq => !ValuesEq(bag[key], l, host)
    case _ => NumericCompare(bag[key], l, op, host)
  }

  /** A key that does not resolve counts as absent. */
  predicate EvalCondition(c: Condition, bag: Bag, host: Host)
  {
    match c
    case IsTrue(key) =>
      var k := Expand(bag, key, host);
      k.Some? && GetBool(bag, k.value) == Some(true)
    case IsFalse(key) =>
      var k := Expand(bag, key, host);
      k.None? || GetBool(bag, k.value) != Some(true)
    case Exists(key) =>
      var k := Expand(bag, key, host);
      k.Some? && k.value in bag
    case Comparison(key, op, value) =>
      var k := Expand(bag, key, host);
      k.Some? && Compare(k.value, op, value, bag, host)
    case InSet(valueKey, setKey, negate) =>
      var vk, sk := Expand(bag, valueKey, host), Expand(bag, setKey, host);
      var inSet := vk.Some? && sk.Some?
        && GetString(bag, vk.value).Some? && GetStringSet(bag, sk.value).Some?
        && GetString(bag, vk.value).value in GetStringSet(bag, sk.value).value;
      if negate then !inSet else inSet
  }

  predicate Eval(e: Expression, bag: Bag, host: Host)
  {
    match e
    case Cond(c) => EvalCondition(c, bag, host)
    case And(parts) => forall p | p in parts :: Eval(p, bag, host)
    case Or(parts) => exists p | p in parts :: Eval(p, bag, host)
    case Not(inner) => !Eval(inner, bag, host)
    case Always => true
  }
}
