/** Reorderings of a list. */
module Orders {
  lemma TakenOut<T>(front: seq<T>, x: T, back: seq<T>)
    ensures multiset(front + ([x] + back)) == multiset(front + back) + multiset{x}
  {
  }

  /** The first element of one order, found in another. */
  lemma Find<T>(xs: seq<T>, ys: seq<T>) returns (front: seq<T>, back: seq<T>)
    requires xs != [] && multiset(xs) == multiset(ys)
    ensures ys == front + ([xs[0]] + back)
    ensures multiset(front + back) == multiset(xs[1..])
  {
    assert xs[0] in multiset(ys);
    var i :| 0 <= i < |ys| && ys[i] == xs[0];
    front, back := ys[..i], ys[i + 1..];
    assert ys == front + ([xs[0]] + back);
    TakenOut(front, xs[0], back);
    assert xs == [] + ([xs[0]] + xs[1..]);
    TakenOut([], xs[0], xs[1..]);
    assert [] + xs[1..] == xs[1..];
    SumCancels(multiset(front + back), multiset(xs[1..]), xs[0]);
  }

  lemma SumCancels<T>(a: multiset<T>, b: multiset<T>, x: T)
    requires a + multiset{x} == b + multiset{x}
    ensures a == b
  {
    assert a == a + multiset{x} - multiset{x};
  }

  lemma NoneLeft<T>(xs: seq<T>, ys: seq<T>)
    requires xs == [] && multiset(xs) == multiset(ys)
    ensures ys == []
  {
    assert |multiset(ys)| == |ys|;
  }
}
