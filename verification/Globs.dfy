/** Model-id globs (`glob_match` in cpex-core's `routing.rs`): a greedy matcher with one backtrack
    point, against what a glob means. */
module Globs {
  import opened Text

  /** `*` stands for any run of characters, everything else for itself. */
  predicate Means(p: string, i: nat, t: string, j: nat)
    requires i <= |p| && j <= |t|
    decreases |p| - i + |t| - j
  {
    if i == |p| then j == |t|
    else if p[i] == '*' then Means(p, i + 1, t, j) || (j < |t| && Means(p, i, t, j + 1))
    else j < |t| && p[i] == t[j] && Means(p, i + 1, t, j + 1)
  }

  predicate AllStars(p: string, i: nat)
    requires i <= |p|
  {
    forall k :: i <= k < |p| ==> p[k] == '*'
  }

  // ----- the matcher -----

  /** Where the matcher stands: pattern and text index, the last `*` seen and where its text resumes. */
  datatype Cursor = Cursor(pi: nat, ti: nat, star: Option<nat>, resume: nat)

  predicate Fits(p: string, t: string, c: Cursor)
  {
    && c.pi <= |p| && c.ti <= |t| && c.resume <= c.ti
    && (c.star.Some? ==> c.star.value < c.pi)
  }

  function Scan(p: string, t: string, c: Cursor): bool
    requires Fits(p, t, c)
    decreases if c.star.Some? then |p| - c.star.value else |p| + 1, |t| - c.resume, |t| - c.ti
  {
    if c.ti == |t| then AllStars(p, c.pi)
    else if c.pi < |p| && p[c.pi] == t[c.ti] then Scan(p, t, c.(pi := c.pi + 1, ti := c.ti + 1))
    else if c.pi < |p| && p[c.pi] == '*' then Scan(p, t, Cursor(c.pi + 1, c.ti, Some(c.pi), c.ti))
    else if c.star.Some? then Scan(p, t, Cursor(c.star.value + 1, c.resume + 1, c.star, c.resume + 1))
    else false
  }

  function Glob(p: string, t: string): bool { Scan(p, t, Cursor(0, 0, None, 0)) }

  method GlobMatch(p: string, t: string) returns (m: bool)
    ensures m == Glob(p, t)
  {
    var pi: nat, ti: nat, resume: nat := 0, 0, 0;
    var star: Option<nat> := None;
    while ti < |t|
      invariant Fits(p, t, Cursor(pi, ti, star, resume))
      invariant Glob(p, t) == Scan(p, t, Cursor(pi, ti, star, resume))
      decreases if star.Some? then |p| - star.value else |p| + 1, |t| - resume, |t| - ti
    {
      if pi < |p| && p[pi] == t[ti] {
        pi, ti := pi + 1, ti + 1;
      } else if pi < |p| && p[pi] == '*' {
        star, resume := Some(pi), ti;
        pi := pi + 1;
      } else if star.Some? {
        pi, resume := star.value + 1, resume + 1;
        ti := resume;
      } else {
        return false;
      }
    }
    ghost var from := pi;
    while pi < |p| && p[pi] == '*'
      invariant from <= pi <= |p| && forall k :: from <= k < pi ==> p[k] == '*'
    {
      pi := pi + 1;
    }
    return pi == |p|;
  }

  // ----- facts about the meaning -----

  lemma {:induction false} MeansAtEnd(p: string, i: nat, t: string)
    requires i <= |p|
    ensures Means(p, i, t, |t|) <==> AllStars(p, i)
    decreases |p| - i
  {
    if i < |p| { MeansAtEnd(p, i + 1, t); }
  }

  /** A `*` may as well start earlier. */
  lemma {:induction false} StarReachesBack(p: string, i: nat, t: string, j: nat, k: nat)
    requires i < |p| && p[i] == '*' && j <= k <= |t| && Means(p, i, t, k)
    ensures Means(p, i, t, j)
    decreases k - j
  {
    if j < k { StarReachesBack(p, i, t, j + 1, k); }
  }

  /** `p[a..b]` is literal text found in `t` from `j` on. */
  predicate Literal(p: string, a: nat, b: nat, t: string, j: nat)
  {
    a <= b <= |p| && j + (b - a) <= |t| && forall k :: a <= k < b ==> p[k] != '*' && p[k] == t[k - a + j]
  }

  lemma {:induction false} LiteralConsumes(p: string, a: nat, b: nat, t: string, j: nat)
    requires Literal(p, a, b, t, j)
    ensures Means(p, a, t, j) <==> Means(p, b, t, j + (b - a))
    decreases b - a
  {
    if a < b {
      assert p[a] == t[j];
      LiteralConsumes(p, a + 1, b, t, j + 1);
    }
  }

  /** A literal run of the pattern takes up as much text wherever it matches. */
  lemma {:induction false} LiteralAdvances(p: string, a: nat, b: nat, t: string, j: nat)
    requires a <= b <= |p| && j <= |t| && (forall k :: a <= k < b ==> p[k] != '*') && Means(p, a, t, j)
    ensures j + (b - a) <= |t| && Means(p, b, t, j + (b - a))
    decreases b - a
  {
    if a < b { LiteralAdvances(p, a + 1, b, t, j + 1); }
  }

  /** What follows the `*` matches somewhere at or after `j`. */
  lemma {:induction false} StarFinds(p: string, s: nat, t: string, j: nat) returns (k: nat)
    requires s < |p| && p[s] == '*' && j <= |t| && Means(p, s, t, j)
    ensures j <= k <= |t| && Means(p, s + 1, t, k)
    decreases |t| - j
  {
    if Means(p, s + 1, t, j) { k := j; } else { k := StarFinds(p, s, t, j + 1); }
  }

  // ----- the greedy choice is safe -----

  /** What the cursor has established: the text since `resume` is literally what follows the last
      `*`, and the whole question comes down to that `*`. */
  ghost predicate OnCourse(p: string, t: string, c: Cursor)
  {
    && Fits(p, t, c)
    && match c.star
       case None => Means(p, 0, t, 0) <==> Means(p, c.pi, t, c.ti)
       case Some(s) =>
         && p[s] == '*' && Literal(p, s + 1, c.pi, t, c.resume) && c.ti == c.resume + (c.pi - (s + 1))
         && (Means(p, 0, t, 0) <==> Means(p, s, t, c.resume))
  }

  /** Later places for the last `*` leave less text: past the literal run the rest must match later still. */
  lemma LaterIsShorter(p: string, t: string, c: Cursor) returns (k: nat)
    requires OnCourse(p, t, c) && c.star.Some? && c.resume < |t| && Means(p, c.star.value, t, c.resume + 1)
    ensures c.ti < k <= |t| && Means(p, c.pi, t, k)
  {
    var s := c.star.value;
    var j := StarFinds(p, s, t, c.resume + 1);
    LiteralAdvances(p, s + 1, c.pi, t, j);
    k := j + (c.pi - (s + 1));
  }

  /** The question, seen from the cursor. */
  lemma Unfolded(p: string, t: string, c: Cursor)
    requires OnCourse(p, t, c)
    ensures Means(p, 0, t, 0) <==>
      Means(p, c.pi, t, c.ti) || (c.star.Some? && c.resume < |t| && Means(p, c.star.value, t, c.resume + 1))
  {
    if c.star.Some? { LiteralConsumes(p, c.star.value + 1, c.pi, t, c.resume); }
  }

  lemma AtTheEnd(p: string, t: string, c: Cursor)
    requires OnCourse(p, t, c) && c.ti == |t|
    ensures Means(p, 0, t, 0) <==> AllStars(p, c.pi)
  {
    Unfolded(p, t, c);
    MeansAtEnd(p, c.pi, t);
    if c.star.Some? && c.resume < |t| && Means(p, c.star.value, t, c.resume + 1) { var k := LaterIsShorter(p, t, c); }
  }

  lemma NewStarStays(p: string, t: string, c: Cursor)
    requires OnCourse(p, t, c) && c.ti < |t| && c.pi < |p| && p[c.pi] == '*'
    ensures OnCourse(p, t, Cursor(c.pi + 1, c.ti, Some(c.pi), c.ti))
  {
    Unfolded(p, t, c);
    if c.star.Some? && Means(p, c.star.value, t, c.resume + 1) {
      var k := LaterIsShorter(p, t, c);
      StarReachesBack(p, c.pi, t, c.ti, k);
    }
  }

  lemma RetryStays(p: string, t: string, c: Cursor)
    requires OnCourse(p, t, c) && c.ti < |t| && c.star.Some? && !Means(p, c.pi, t, c.ti)
    ensures OnCourse(p, t, Cursor(c.star.value + 1, c.resume + 1, c.star, c.resume + 1))
  {
    Unfolded(p, t, c);
  }

  lemma LiteralStays(p: string, t: string, c: Cursor)
    requires OnCourse(p, t, c) && c.ti < |t| && c.pi < |p| && p[c.pi] == t[c.ti] && p[c.pi] != '*'
    ensures OnCourse(p, t, c.(pi := c.pi + 1, ti := c.ti + 1))
  {
  }

  // ----- exactly when the matcher is right -----

  /** The text has no `*`, or only one at its very end. */
  predicate StarSafe(t: string) { forall i :: 0 <= i < |t| - 1 ==> t[i] != '*' }

  /** A `*` matched against a final `*` of the text. */
  lemma FinalStar(p: string, t: string, c: Cursor)
    requires OnCourse(p, t, c) && c.ti == |t| - 1 && c.pi < |p| && p[c.pi] == '*' && t[c.ti] == '*'
    ensures Means(p, 0, t, 0) <==> AllStars(p, c.pi + 1)
  {
    Unfolded(p, t, c);
    MeansAtEnd(p, c.pi, t);
    if Means(p, c.pi + 1, t, c.ti) { SingleStar(p, c.pi + 1, t); }
    if c.star.Some? && Means(p, c.star.value, t, c.resume + 1) {
      var k := LaterIsShorter(p, t, c);
    }
  }

  /** Only stars match a text of one `*`. */
  lemma {:induction false} SingleStar(p: string, i: nat, t: string)
    requires i <= |p| && t != "" && t[|t| - 1] == '*' && Means(p, i, t, |t| - 1)
    ensures AllStars(p, i)
    decreases |p| - i
  {
    if i < |p| {
      if Means(p, i + 1, t, |t| - 1) { SingleStar(p, i + 1, t); } else { MeansAtEnd(p, i, t); }
    }
  }

  lemma {:induction false} ScanIsRight(p: string, t: string, c: Cursor)
    requires StarSafe(t) && OnCourse(p, t, c)
    ensures Scan(p, t, c) <==> Means(p, 0, t, 0)
    decreases if c.star.Some? then |p| - c.star.value else |p| + 1, |t| - c.resume, |t| - c.ti
  {
    if c.ti == |t| {
      AtTheEnd(p, t, c);
    } else if c.pi < |p| && p[c.pi] == t[c.ti] {
      if p[c.pi] == '*' {
        FinalStar(p, t, c);
      } else {
        LiteralStays(p, t, c);
        ScanIsRight(p, t, c.(pi := c.pi + 1, ti := c.ti + 1));
      }
    } else if c.pi < |p| && p[c.pi] == '*' {
      NewStarStays(p, t, c);
      ScanIsRight(p, t, Cursor(c.pi + 1, c.ti, Some(c.pi), c.ti));
    } else if c.star.Some? {
      RetryStays(p, t, c);
      ScanIsRight(p, t, Cursor(c.star.value + 1, c.resume + 1, c.star, c.resume + 1));
    } else {
      Unfolded(p, t, c);
    }
  }

  /** A `*` earlier in the text is taken literally by a `*` of the pattern, and a match is missed. */
  lemma EarlyStarMisleads(t: string, i: nat)
    requires i < |t| - 1 && t[i] == '*' && forall k :: 0 <= k < i ==> t[k] != '*'
    ensures var p := t[..i] + "*"; Means(p, 0, t, 0) && !Glob(p, t)
  {
    var p := t[..i] + "*";
    assert Literal(p, 0, i, t, 0);
    LiteralConsumes(p, 0, i, t, 0);
    StarTakesRest(p, i, t, i);
    WalksLiterally(p, t, i, 0);
  }

  lemma {:induction false} StarTakesRest(p: string, i: nat, t: string, j: nat)
    requires i + 1 == |p| && p[i] == '*' && j <= |t|
    ensures Means(p, i, t, j)
    decreases |t| - j
  {
    if j < |t| { StarTakesRest(p, i, t, j + 1); } else { assert Means(p, i + 1, t, j); }
  }

  lemma {:induction false} WalksLiterally(p: string, t: string, i: nat, k: nat)
    requires k <= i < |t| - 1 && p == t[..i] + "*" && t[i] == '*'
    ensures !Scan(p, t, Cursor(k, k, None, 0))
    decreases i - k
  {
    if k < i {
      assert p[k] == t[k];
      WalksLiterally(p, t, i, k + 1);
    } else {
      assert !Scan(p, t, Cursor(i + 1, i + 1, None, 0));
    }
  }

  /** The matcher decides every pattern rightly exactly for texts without an early `*`. */
  lemma GlobIsRight(t: string)
    ensures (forall p :: Glob(p, t) <==> Means(p, 0, t, 0)) <==> StarSafe(t)
  {
    if StarSafe(t) {
      forall p ensures Glob(p, t) <==> Means(p, 0, t, 0) { ScanIsRight(p, t, Cursor(0, 0, None, 0)); }
    } else {
      var i := FirstEarlyStar(t, 0);
      EarlyStarMisleads(t, i);
    }
  }

  lemma {:induction false} FirstEarlyStar(t: string, from: nat) returns (i: nat)
    requires !StarSafe(t) && from < |t| && forall k :: 0 <= k < from ==> t[k] != '*'
    ensures i < |t| - 1 && t[i] == '*' && forall k :: 0 <= k < i ==> t[k] != '*'
    decreases |t| - from
  {
    if t[from] == '*' { i := from; } else { i := FirstEarlyStar(t, from + 1); }
  }

  // ----- patterns without stars -----

  lemma {:induction false} PlainScan(p: string, t: string, k: nat)
    requires '*' !in p && k <= |p| && k <= |t|
    ensures Scan(p, t, Cursor(k, k, None, 0)) <==> p[k..] == t[k..]
    decreases |t| - k
  {
    if k == |t| {
      assert AllStars(p, k) <==> k == |p|;
    } else if k < |p| && p[k] == t[k] {
      PlainScan(p, t, k + 1);
      assert p[k..] == [p[k]] + p[k + 1..] && t[k..] == [t[k]] + t[k + 1..];
    } else {
      assert t[k..] != [];
      if k < |p| { assert p[k..][0] == p[k] && t[k..][0] == t[k]; }
    }
  }

  /** A pattern without `*` matches exactly itself, whatever the text. */
  lemma PlainPatternIsEquality(p: string, t: string)
    requires '*' !in p
    ensures Glob(p, t) <==> p == t
  {
    PlainScan(p, t, 0);
    assert p[0..] == p && t[0..] == t;
  }
}
