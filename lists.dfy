/** Building a list by extending it, item after item, with what each item
    produces: the `result += f(item)` loops of the ingestion code. */
module Lists {

  /** `f(xs[0]) + f(xs[1]) + ... + f(xs[|xs| - 1])`, built from the front: each
      step appends the contribution of the next item. */
  function ConcatMap<A, B>(f: A -> seq<B>, xs: seq<A>): seq<B> {
    if |xs| == 0 then [] else ConcatMap(f, xs[..|xs| - 1]) + f(xs[|xs| - 1])
  }

  /** One more step of the loop: the prefix up to `i + 1` is the prefix up to `i`
      followed by the contribution of item `i`. */
  lemma ConcatMapStep<A, B>(f: A -> seq<B>, xs: seq<A>, i: nat)
    requires i < |xs|
    ensures ConcatMap(f, xs[..i + 1]) == ConcatMap(f, xs[..i]) + f(xs[i])
  {
    assert xs[..i + 1][..i] == xs[..i];
  }

  /** The result for two lists is the result for the first followed by the result for the second. */
  lemma {:induction false} ConcatMapAppend<A, B>(f: A -> seq<B>, xs: seq<A>, ys: seq<A>)
    ensures ConcatMap(f, xs + ys) == ConcatMap(f, xs) + ConcatMap(f, ys)
  {
    if |ys| == 0 {
      assert xs + ys == xs;
    } else {
      var init := ys[..|ys| - 1];
      ConcatMapAppend(f, xs, init);
      assert (xs + ys)[..|xs + ys| - 1] == xs + init;
      assert (xs + ys)[|xs + ys| - 1] == ys[|ys| - 1];
    }
  }

  /** Every element of the result is element `j` of the contribution of some item `k`. */
  lemma {:induction false} ConcatMapOrigin<A, B>(f: A -> seq<B>, xs: seq<A>, m: nat)
    requires m < |ConcatMap(f, xs)|
    ensures exists k, j :: 0 <= k < |xs| && 0 <= j < |f(xs[k])| && ConcatMap(f, xs)[m] == f(xs[k])[j]
  {
    var init := ConcatMap(f, xs[..|xs| - 1]);
    if m < |init| {
      ConcatMapOrigin(f, xs[..|xs| - 1], m);
      var k, j :| 0 <= k < |xs[..|xs| - 1]| && 0 <= j < |f(xs[..|xs| - 1][k])| && init[m] == f(xs[..|xs| - 1][k])[j];
      assert xs[..|xs| - 1][k] == xs[k];
    } else {
      var k, j := |xs| - 1, m - |init|;
      assert ConcatMap(f, xs)[m] == f(xs[k])[j];
    }
  }

  /** Items that contribute nothing may be dropped. */
  lemma ConcatMapSkip<A, B>(f: A -> seq<B>, xs: seq<A>, x: A, ys: seq<A>)
    requires f(x) == []
    ensures ConcatMap(f, xs + [x] + ys) == ConcatMap(f, xs + ys)
  {
    ConcatMapAppend(f, xs + [x], ys);
    ConcatMapAppend(f, xs, [x]);
    ConcatMapAppend(f, xs, ys);
    assert ConcatMap(f, [x]) == ConcatMap(f, []) + f(x);
  }
}
