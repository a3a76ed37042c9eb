/** Concatenating what each element of a sequence contributes. */
module Sequences {
  function FlatMap<A, B>(f: A -> seq<B>, xs: seq<A>): seq<B> {
    if xs == [] then [] else FlatMap(f, xs[..|xs| - 1]) + f(xs[|xs| - 1])
  }

  lemma FlatMapAppend<A, B>(f: A -> seq<B>, xs: seq<A>, x: A)
    ensures FlatMap(f, xs + [x]) == FlatMap(f, xs) + f(x)
  {
    assert (xs + [x])[..|xs|] == xs;
  }

  lemma LastOfConcat<A>(xs: seq<A>, ys: seq<A>)
    requires ys != []
    ensures xs + ys == (xs + ys[..|ys| - 1]) + [ys[|ys| - 1]]
  {
  }

  lemma {:induction false} FlatMapConcat<A, B>(f: A -> seq<B>, xs: seq<A>, ys: seq<A>)
    ensures FlatMap(f, xs + ys) == FlatMap(f, xs) + FlatMap(f, ys)
    decreases |ys|
  {
    if ys == [] {
      assert xs + ys == xs;
      assert FlatMap(f, ys) == [];
    } else {
      var init, y := ys[..|ys| - 1], ys[|ys| - 1];
      FlatMapConcat(f, xs, init);
      LastOfConcat(xs, ys);
      FlatMapAppend(f, xs + init, y);
      Regroup(FlatMap(f, xs), FlatMap(f, init), f(y));
    }
  }

  lemma Regroup<A>(a: seq<A>, b: seq<A>, c: seq<A>)
    ensures (a + b) + c == a + (b + c)
  {
  }

  /** Elements that contribute the same, one by one, contribute the same together. */
  lemma {:induction false} FlatMapSame<A, B>(f: A -> seq<B>, xs: seq<A>, ys: seq<A>)
    requires |xs| == |ys| && forall i :: 0 <= i < |xs| ==> f(xs[i]) == f(ys[i])
    ensures FlatMap(f, xs) == FlatMap(f, ys)
    decreases |xs|
  {
    if xs != [] { FlatMapSame(f, xs[..|xs| - 1], ys[..|ys| - 1]); }
  }
}
