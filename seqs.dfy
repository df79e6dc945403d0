/** Sequence helpers shared by the scan and the refresh. */
module Seqs {

  /** The lists of `xss`, one after the other. */
  function Flatten<T>(xss: seq<seq<T>>): seq<T>
    decreases |xss|
  {
    if xss == [] then [] else Flatten(xss[..|xss| - 1]) + xss[|xss| - 1]
  }

  lemma {:induction false} FlattenMembers<T>(xss: seq<seq<T>>, x: T)
    decreases |xss|
    ensures x in Flatten(xss) <==> exists j :: 0 <= j < |xss| && x in xss[j]
  {
    if xss != [] {
      var init := xss[..|xss| - 1];
      FlattenMembers(init, x);
      if x in Flatten(init) {
        var j :| 0 <= j < |init| && x in init[j];
        assert xss[j] == init[j];
      }
      forall j | 0 <= j < |init| && x in xss[j] ensures x in Flatten(init) {
        assert xss[j] == init[j];
      }
    }
  }

  lemma FlattenSnoc<T>(xss: seq<seq<T>>, ys: seq<T>)
    ensures Flatten(xss + [ys]) == Flatten(xss) + ys
  {
    assert (xss + [ys])[..|xss|] == xss;
  }

  /** `f` of each element of `xs`, one list after the other. */
  function FlatMap<A, B>(f: A -> seq<B>, xs: seq<A>): seq<B> {
    Flatten(seq(|xs|, j requires 0 <= j < |xs| => f(xs[j])))
  }

  lemma FlatMapSnoc<A, B>(f: A -> seq<B>, xs: seq<A>, i: nat)
    requires i < |xs|
    ensures FlatMap(f, xs[..i + 1]) == FlatMap(f, xs[..i]) + f(xs[i])
  {
    var init := xs[..i];
    var next := xs[..i + 1];
    var xss := seq(|init|, j requires 0 <= j < |init| => f(init[j]));
    assert seq(|next|, j requires 0 <= j < |next| => f(next[j])) == xss + [f(xs[i])];
    FlattenSnoc(xss, f(xs[i]));
  }

  lemma FlatMapMembers<A, B>(f: A -> seq<B>, xs: seq<A>, y: B)
    ensures y in FlatMap(f, xs) <==> exists j :: 0 <= j < |xs| && y in f(xs[j])
  {
    var xss := seq(|xs|, j requires 0 <= j < |xs| => f(xs[j]));
    FlattenMembers(xss, y);
    if y in FlatMap(f, xs) {
      var j :| 0 <= j < |xss| && y in xss[j];
      assert y in f(xs[j]);
    }
    if j :| 0 <= j < |xs| && y in f(xs[j]) {
      assert y in xss[j];
    }
  }
}
