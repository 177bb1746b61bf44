/** Generic facts about sequences used by the evaluator and the aggregator. */
module Sequences {

  /** `f` applied to each element of `xs`, the results concatenated in order. */
  function FlatMap<A, B>(f: A -> seq<B>, xs: seq<A>): seq<B> {
    if xs == [] then [] else FlatMap(f, xs[..|xs| - 1]) + f(xs[|xs| - 1])
  }

  /** `f` applied to each element of `xs`, the results in the same order. */
  function Map<A, B>(f: A --> B, xs: seq<A>): (ys: seq<B>)
    requires forall i :: 0 <= i < |xs| ==> f.requires(xs[i])
    ensures |ys| == |xs|
    ensures forall i :: 0 <= i < |xs| ==> ys[i] == f(xs[i])
  {
    if xs == [] then [] else Map(f, xs[..|xs| - 1]) + [f(xs[|xs| - 1])]
  }

  lemma AppendAssoc<T>(a: seq<T>, b: seq<T>, c: seq<T>)
    ensures (a + b) + c == a + (b + c)
  {
  }

  /** Flattening distributes over concatenation: the results for `xs` come
      first, then those for `ys`. */
  lemma {:induction false} FlatMapConcat<A, B>(f: A -> seq<B>, xs: seq<A>, ys: seq<A>)
    ensures FlatMap(f, xs + ys) == FlatMap(f, xs) + FlatMap(f, ys)
  {
    if ys == [] {
      assert xs + ys == xs;
    } else {
      var n := |ys|;
      var zs := xs + ys;
      assert zs[..|zs| - 1] == xs + ys[..n - 1];
      assert zs[|zs| - 1] == ys[n - 1];
      FlatMapConcat(f, xs, ys[..n - 1]);
      AppendAssoc(FlatMap(f, xs), FlatMap(f, ys[..n - 1]), f(ys[n - 1]));
    }
  }

  lemma FlatMapSingle<A, B>(f: A -> seq<B>, x: A)
    ensures FlatMap(f, [x]) == f(x)
  {
    assert [x][..0] == [];
  }

  /** An element of the flattening comes from the result for some element. */
  lemma {:induction false} FlatMapMember<A, B>(f: A -> seq<B>, xs: seq<A>, b: B)
    ensures b in FlatMap(f, xs) <==> exists i :: 0 <= i < |xs| && b in f(xs[i])
  {
    if xs != [] {
      var n := |xs|;
      var prefix := xs[..n - 1];
      FlatMapMember(f, prefix, b);
      if b in FlatMap(f, prefix) {
        var i :| 0 <= i < n - 1 && b in f(prefix[i]);
        assert xs[i] == prefix[i];
      }
      if exists i :: 0 <= i < n && b in f(xs[i]) {
        var i :| 0 <= i < n && b in f(xs[i]);
        if i < n - 1 {
          assert prefix[i] == xs[i];
        }
      }
    }
  }
}
