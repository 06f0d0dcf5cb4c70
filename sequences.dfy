/** Reference definitions over finite sequences, independent of any
    iterator: what a chain of combinators is meant to compute. */
module Sequences {
  import opened JsValues

  function Min(a: nat, b: nat): nat { if a <= b then a else b }

  /** Every pull in `s` returned normally. */
  ghost predicate AllNormal(s: seq<Completion<Value>>) {
    forall i :: 0 <= i < |s| ==> s[i].Normal?
  }

  lemma AllNormalTail(s: seq<Completion<Value>>)
    requires AllNormal(s) && s != []
    ensures AllNormal(s[1..])
  {
    forall k | 0 <= k < |s[1..]|
      ensures s[1..][k].Normal?
    {
      assert s[1..][k] == s[k + 1];
    }
  }

  /** The values of a script whose pulls all returned normally. */
  function Values(s: seq<Completion<Value>>): (vs: seq<Value>)
    requires AllNormal(s)
    ensures |vs| == |s| && forall i :: 0 <= i < |s| ==> vs[i] == s[i].value
  {
    seq(|s|, i requires 0 <= i < |s| => s[i].value)
  }

  /** `{done: false, value}` for each value, in order. */
  function Yields(vs: seq<Value>): (r: seq<Completion<Step>>)
    ensures |r| == |vs| && forall i :: 0 <= i < |vs| ==> r[i] == Normal(Yield(vs[i]))
  {
    seq(|vs|, i requires 0 <= i < |vs| => Normal(Yield(vs[i])))
  }

  function Map<A, B>(f: A -> B, xs: seq<A>): (ys: seq<B>)
    ensures |ys| == |xs| && forall i :: 0 <= i < |xs| ==> ys[i] == f(xs[i])
  {
    seq(|xs|, i requires 0 <= i < |xs| => f(xs[i]))
  }

  /** `xs` with a transform that never throws applied to each element. */
  ghost function TransformAll(transformer: Option<Transformer>, xs: seq<Value>): (ys: seq<Value>)
    requires TransformNeverThrows(transformer)
    ensures |ys| == |xs| && forall i :: 0 <= i < |xs| ==> ys[i] == Transformed(transformer, xs[i])
  {
    seq(|xs|, i requires 0 <= i < |xs| => Transformed(transformer, xs[i]))
  }

  /** `f` applied to each element together with its index, counted from `from`. */
  function MapIndexed<A, B>(f: (A, nat) -> B, xs: seq<A>, from: nat): (ys: seq<B>)
    ensures |ys| == |xs| && forall i :: 0 <= i < |xs| ==> ys[i] == f(xs[i], from + i)
  {
    seq(|xs|, i requires 0 <= i < |xs| => f(xs[i], from + i))
  }

  /** The elements of `xs` that `keep` accepts, in order; each element is
      examined together with its position. */
  function FilterIndexed<A>(keep: (A, nat) -> bool, xs: seq<A>): (ys: seq<A>)
    ensures |ys| <= |xs|
    decreases |xs|
  {
    if xs == [] then []
    else
      var last := |xs| - 1;
      FilterIndexed(keep, xs[..last]) + (if keep(xs[last], last) then [xs[last]] else [])
  }

  function Take<A>(xs: seq<A>, n: nat): seq<A> { xs[..Min(n, |xs|)] }

  function Drop<A>(xs: seq<A>, n: nat): seq<A> { xs[Min(n, |xs|)..] }

  /** `xs.slice(start, end)` for non-negative bounds; no end means to the end. */
  function Slice<A>(xs: seq<A>, start: nat, end: Option<nat>): seq<A> {
    var hi := if end.Some? then Min(end.value, |xs|) else |xs|;
    if start <= hi then xs[start..hi] else []
  }

  function Flatten<A>(xss: seq<seq<A>>): seq<A>
    decreases xss
  {
    if xss == [] then [] else xss[0] + Flatten(xss[1..])
  }

  /** Left fold; element k is combined with index `from + k`. */
  function FoldLeft<A, B>(f: (B, A, nat) -> B, acc: B, xs: seq<A>, from: nat): B
    decreases xs
  {
    if xs == [] then acc else FoldLeft(f, f(acc, xs[0], from), xs[1..], from + 1)
  }

  /** The first error of a sequence of completions, or all of their values. */
  function AllOrFirstError(cs: seq<Completion<Value>>): Completion<seq<Value>>
    decreases cs
  {
    if cs == [] then Normal([])
    else match cs[0]
      case Thrown(e) => Thrown(e)
      case Normal(v) =>
        match AllOrFirstError(cs[1..])
        case Thrown(e) => Thrown(e)
        case Normal(vs) => Normal([v] + vs)
  }

  lemma FilterIndexedAppend<A>(keep: (A, nat) -> bool, xs: seq<A>, x: A)
    ensures FilterIndexed(keep, xs + [x]) == FilterIndexed(keep, xs) + (if keep(x, |xs|) then [x] else [])
  {
    assert (xs + [x])[..|xs|] == xs;
  }

  lemma {:induction false} FlattenAppend<A>(xss: seq<seq<A>>, xs: seq<A>)
    ensures Flatten(xss + [xs]) == Flatten(xss) + xs
    decreases xss
  {
    if xss == [] {
      assert [] + [xs] == [xs];
    } else {
      assert (xss + [xs])[1..] == xss[1..] + [xs];
      FlattenAppend(xss[1..], xs);
    }
  }

  lemma YieldsAppend(a: seq<Value>, b: seq<Value>)
    ensures Yields(a + b) == Yields(a) + Yields(b)
  {
  }

  lemma YieldsSnoc(a: seq<Value>, v: Value)
    ensures Yields(a + [v]) == Yields(a) + [Normal(Yield(v))]
  {
    YieldsAppend(a, [v]);
    assert Yields([v]) == [Normal(Yield(v))];
  }

  /** The transformed values of a script, one entry shorter. */
  lemma TransformAllSnoc(transformer: Option<Transformer>, s: seq<Completion<Value>>)
    requires AllNormal(s) && s != [] && TransformNeverThrows(transformer)
    ensures AllNormal(s[..|s| - 1])
    ensures TransformAll(transformer, Values(s))
         == TransformAll(transformer, Values(s[..|s| - 1])) + [Transformed(transformer, s[|s| - 1].value)]
  {
    var init := s[..|s| - 1];
    assert AllNormal(init) by {
      forall i | 0 <= i < |init| ensures init[i].Normal? {
        assert init[i] == s[i];
      }
    }
    var a := TransformAll(transformer, Values(s));
    var b := TransformAll(transformer, Values(init)) + [Transformed(transformer, s[|s| - 1].value)];
    forall i | 0 <= i < |a|
      ensures a[i] == b[i]
    {
      if i < |init| {
        assert init[i] == s[i];
      }
    }
  }

  lemma DropSnoc<A>(xs: seq<A>, x: A, n: nat)
    ensures Drop(xs + [x], n) == if |xs| < n then [] else Drop(xs, n) + [x]
  {
  }
}
