/** Filtering a list of names against another, as the list comprehensions of the builders do. */
module Lists {

  /** `xs` is `ys` with some elements left out, the rest in their order. */
  predicate Subsequence(xs: seq<string>, ys: seq<string>)
    decreases |ys|
  {
    if |xs| == 0 then true
    else if |ys| == 0 then false
    else if xs[0] == ys[0] then Subsequence(xs[1..], ys[1..])
    else Subsequence(xs, ys[1..])
  }

  /** `[x for x in xs if x not in drop]` */
  function Without(xs: seq<string>, drop: seq<string>): (r: seq<string>)
    ensures |r| <= |xs| && Subsequence(r, xs)
    ensures forall x :: x in r <==> x in xs && x !in drop
  {
    if |xs| == 0 then []
    else if xs[0] in drop then Without(xs[1..], drop)
    else [xs[0]] + Without(xs[1..], drop)
  }

  /** Filtering keeps the input order: it distributes over concatenation. */
  lemma {:induction false} WithoutAppend(xs: seq<string>, ys: seq<string>, drop: seq<string>)
    ensures Without(xs + ys, drop) == Without(xs, drop) + Without(ys, drop)
  {
    if |xs| == 0 {
      assert xs + ys == ys;
    } else {
      assert (xs + ys)[1..] == xs[1..] + ys;
      WithoutAppend(xs[1..], ys, drop);
    }
  }

  /** Dropping nothing keeps everything. */
  lemma {:induction false} WithoutNothing(xs: seq<string>)
    ensures Without(xs, []) == xs
  {
    if |xs| > 0 {
      WithoutNothing(xs[1..]);
    }
  }

  /**
   * The column choice of the builders: an explicit selection is kept as is; an empty one
   * becomes all columns, in declaration order, minus the ignored ones.
   */
  function Resolve(selected: seq<string>, all: seq<string>, ignored: seq<string>): (r: seq<string>)
    ensures |selected| > 0 ==> r == selected
    ensures |selected| == 0 ==> Subsequence(r, all) && forall f :: f in r <==> f in all && f !in ignored
  {
    if |selected| == 0 then Without(all, ignored) else selected
  }
}
