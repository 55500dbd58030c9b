/** Resolving `restrict` effects against the request (`constraint.rs`). */
module Constraints {
  import opened Text
  import opened Ir
  import opened Attributes

  function ToSet(strings: seq<string>): set<string> { set s | s in strings }

  /** A literal always resolves; a reference resolves to the set or string it finds. */
  function ResolveSet(spec: StringSetSpec, bag: Bag, host: Host): Option<set<string>>
  {
    match spec
    case Literals(strings) => Some(ToSet(strings))
    case Ref(path) =>
      match Expand(bag, path, host)
      case None => None
      case Some(key) =>
        if key !in bag then None
        else match bag[key]
          case ASet(strings) => Some(strings)
          case AString(s) => Some({s})
          case _ => None
  }

  /** An allow-list that does not resolve allows nothing. */
  function ResolveAllow(spec: Option<StringSetSpec>, bag: Bag, host: Host): Option<set<string>>
  {
    if spec.None? then None
    else
      var resolved := ResolveSet(spec.value, bag, host);
      Some(if resolved.None? then {} else resolved.value)
  }

  /** A deny-list that does not resolve is an error naming the reference. */
  function Resolve(spec: RestrictSpec, bag: Bag, host: Host): Result<CandidateConstraint, string>
  {
    var deny := if spec.denyModels.None? then Some({}) else ResolveSet(spec.denyModels.value, bag, host);
    if deny.None? then Err(if spec.denyModels.value.Ref? then spec.denyModels.value.path else "")
    else Ok(CandidateConstraint(
      ResolveAllow(spec.allowModels, bag, host),
      deny.value,
      ResolveAllow(spec.allowRegions, bag, host),
      ResolveAllow(spec.allowSites, bag, host),
      spec.maxCostTier,
      spec.custom,
      spec.onEmpty))
  }

  predicate IsEmpty(c: CandidateConstraint)
  {
    c.allowModels.None? && c.denyModels == {} && c.allowRegions.None? && c.allowSites.None?
    && c.maxCostTier.None? && c.custom == map[]
  }
}
